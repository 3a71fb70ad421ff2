/** What one batch assembly does to the queue: which requests it hands on, which it settles, and in what order. */
module CheckpointBatches {
  import opened Checkpointer
  import opened CheckpointRuns

  ghost predicate MayTravel(c: Core, r: Request, ended: set<nat>) {
    r.pos !in ended && (c.terminated ==> c.Sendable(r))
  }

  /** The batch holds requests of pending[..n], in order, that may be sent. */
  ghost predicate Adds(c: Core, pending: seq<Request>, lo: nat, n: nat, added: seq<Request>, ended: set<nat>)
    requires n <= |pending|
  {
    Increasing(added) &&
    forall r :: r in added ==> lo <= r.pos < lo + n && r == pending[r.pos - lo] && MayTravel(c, r, ended)
  }

  ghost predicate Settles(c: Core, pending: seq<Request>, lo: nat, n: nat, drops: seq<Drop>, ended: set<nat>)
    requires n <= |pending|
  {
    DropsRise(drops) &&
    forall d :: d in drops ==>
      lo <= d.request.pos < lo + n && d.request == pending[d.request.pos - lo] && Justified(c, d, ended)
  }

  /** Of n positions from lo, each is in the batch or settled, never both. */
  ghost predicate Splits(lo: nat, n: nat, added: seq<Request>, drops: seq<Drop>) {
    |added| + |drops| == n &&
    forall k: nat :: lo <= k < lo + n ==> (k in Seqs(added) <==> k !in DroppedSeqs(drops))
  }

  ghost predicate Sorted(c: Core, pending: seq<Request>, lo: nat, added: seq<Request>, t: Taken, ended: set<nat>) {
    |t.rest| <= |pending| &&
    var n := |pending| - |t.rest|;
    t.rest == pending[n..] && Adds(c, pending, lo, n, added, ended) && Settles(c, pending, lo, n, t.drops, ended) &&
    Splits(lo, n, added, t.drops)
  }

  lemma BatchExtends(all: seq<Request>, batch: seq<Request>, p: Request)
    requires |batch| + 1 <= |all| && all[..|batch| + 1] == batch + [p]
    ensures all[..|batch|] == batch && all[|batch|..] == [p] + all[|batch| + 1..]
    ensures all[|batch + [p]|..] == all[|batch| + 1..]
  {
    assert all[..|batch|] == all[..|batch| + 1][..|batch|];
    assert all[|batch|] == all[..|batch| + 1][|batch|];
  }

  lemma {:induction false} TakeSorts(c: Core, pending: seq<Request>, lo: nat, batch: seq<Request>, updates: nat,
                                     size: nat, ended: set<nat>)
    requires Consecutive(pending, lo)
    ensures var t := c.TakeFrom(pending, batch, updates, size, ended);
            |batch| <= |t.batch| && t.batch[..|batch|] == batch &&
            Sorted(c, pending, lo, t.batch[|batch|..], t, ended)
    decreases |pending|
  {
    if pending != [] {
      var p := pending[0];
      if p.pos in ended || (c.terminated && !c.Sendable(p)) {
        TakeSorts(c, pending[1..], lo + 1, batch, updates, size, ended);
        var later := c.TakeFrom(pending[1..], batch, updates, size, ended);
        SortedDropping(c, pending, lo, later.batch[|batch|..], later,
                       Drop(p, if p.pos in ended then ContextEnded else Refused), ended);
      } else if !(batch != [] && Overflows(updates, size, p)) {
        var t := c.TakeFrom(pending[1..], batch + [p], updates + p.updates, size + p.size, ended);
        TakeSorts(c, pending[1..], lo + 1, batch + [p], updates + p.updates, size + p.size, ended);
        BatchExtends(t.batch, batch, p);
        SortedAdding(c, pending, lo, t.batch[|batch| + 1..], t, ended);
      }
    }
  }

  lemma SortedDropping(c: Core, pending: seq<Request>, lo: nat, added: seq<Request>, later: Taken, d: Drop,
                       ended: set<nat>)
    requires pending != [] && Consecutive(pending, lo) && Sorted(c, pending[1..], lo + 1, added, later, ended)
    requires d.request == pending[0] && Justified(c, d, ended)
    ensures Sorted(c, pending, lo, added, later.Dropping(d.request, d.outcome), ended)
  {
    var t := later.Dropping(d.request, d.outcome);
    var n := |pending| - |t.rest|;
    assert t.rest == pending[n..];
    assert Adds(c, pending, lo, n, added, ended);
    assert Settles(c, pending, lo, n, t.drops, ended);
    assert Splits(lo, n, added, t.drops) by {
      assert d in t.drops;
      assert forall e :: e in t.drops <==> e == d || e in later.drops;
      assert DroppedSeqs(t.drops) == {lo} + DroppedSeqs(later.drops);
      assert lo !in Seqs(added);
    }
  }

  lemma SortedAdding(c: Core, pending: seq<Request>, lo: nat, added: seq<Request>, t: Taken, ended: set<nat>)
    requires pending != [] && Consecutive(pending, lo) && Sorted(c, pending[1..], lo + 1, added, t, ended)
    requires MayTravel(c, pending[0], ended)
    ensures Sorted(c, pending, lo, [pending[0]] + added, t, ended)
  {
    var all := [pending[0]] + added;
    var n := |pending| - |t.rest|;
    assert t.rest == pending[n..];
    assert Adds(c, pending, lo, n, all, ended);
    assert Settles(c, pending, lo, n, t.drops, ended);
    assert Splits(lo, n, all, t.drops) by {
      assert pending[0] in all;
      assert forall r :: r in all <==> r == pending[0] || r in added;
      assert Seqs(all) == {lo} + Seqs(added);
      assert lo !in DroppedSeqs(t.drops);
    }
  }

  /** Every request is handed on, settled or left in the queue, and a queue that is not empty gets shorter. */
  lemma {:induction false} TakeCounts(c: Core, pending: seq<Request>, batch: seq<Request>, updates: nat, size: nat,
                                      ended: set<nat>)
    ensures var t := c.TakeFrom(pending, batch, updates, size, ended);
            |t.rest| + |t.batch| + |t.drops| == |pending| + |batch| && |t.rest| <= |pending| &&
            (batch == [] && pending != [] ==> |t.rest| < |pending|)
    decreases |pending|
  {
    if pending != [] {
      var p := pending[0];
      if p.pos in ended || (c.terminated && !c.Sendable(p)) {
        TakeCounts(c, pending[1..], batch, updates, size, ended);
      } else if !(batch != [] && Overflows(updates, size, p)) {
        TakeCounts(c, pending[1..], batch + [p], updates + p.updates, size + p.size, ended);
      }
    }
  }

  /** A batch carries one request or respects both limits, whatever was collected before. */
  lemma {:induction false} TakeWithinLimits(c: Core, pending: seq<Request>, batch: seq<Request>, updates: nat,
                                            size: nat, ended: set<nat>)
    requires size == |c.token| + BATCH_OVERHEAD_BYTES + SizeOf(batch) && updates == UpdatesOf(batch)
    requires batch == [] || WithinLimits(batch, c.token)
    ensures var t := c.TakeFrom(pending, batch, updates, size, ended); t.batch == [] || WithinLimits(t.batch, c.token)
    decreases |pending|
  {
    if pending != [] {
      var p := pending[0];
      if p.pos in ended || (c.terminated && !c.Sendable(p)) {
        TakeWithinLimits(c, pending[1..], batch, updates, size, ended);
      } else if !(batch != [] && Overflows(updates, size, p)) {
        assert (batch + [p])[..|batch|] == batch;
        TakeWithinLimits(c, pending[1..], batch + [p], updates + p.updates, size + p.size, ended);
      }
    }
  }

  lemma {:induction false} DeliverAllCounts(c: Core, drops: seq<Drop>)
    ensures SameSettings(c, c.DeliverAll(drops))
    ensures c.DeliverAll(drops).outstanding == c.outstanding - |drops|
    decreases |drops|
  {
    if drops != [] {
      DeliverAllCounts(c.Deliver(drops[0].request, drops[0].outcome), drops[1..]);
    }
  }

  /** Delivering outcomes in order settles exactly their requests, each with its own outcome. */
  lemma {:induction false} DeliverAllSettles(c: Core, drops: seq<Drop>)
    requires DropsRise(drops)
    ensures c.DeliverAll(drops).settled.Keys == c.settled.Keys + DroppedSeqs(drops)
    ensures forall k :: k in c.settled && k !in DroppedSeqs(drops) ==> c.DeliverAll(drops).settled[k] == c.settled[k]
    ensures forall d :: d in drops ==> c.DeliverAll(drops).settled[d.request.pos] == d.outcome
    decreases |drops|
  {
    if drops != [] {
      var d := drops[0];
      var next := c.Deliver(d.request, d.outcome);
      assert next.settled == c.settled[d.request.pos := d.outcome];
      DeliverAllSettles(next, drops[1..]);
      assert forall e :: e in drops <==> e == d || e in drops[1..];
      assert DroppedSeqs(drops) == {d.request.pos} + DroppedSeqs(drops[1..]);
      assert d.request.pos !in DroppedSeqs(drops[1..]);
      assert c.DeliverAll(drops) == next.DeliverAll(drops[1..]);
    }
  }
}
