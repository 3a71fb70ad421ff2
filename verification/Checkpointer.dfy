/** The checkpointer: the queue of checkpoint requests, the rotating token, and how termination cuts the queue. */
module Checkpointer {

  datatype Option<+T> = None | Some(value: T)

  const BATCH_LIMIT_BYTES := 750 * 1024
  const MAX_BATCH_UPDATES := 250
  const BATCH_OVERHEAD_BYTES := 100

  /** One queued request. `pos` is its position in queue order; `final` marks the invocation's own final write. */
  datatype Request = Request(pos: nat, updates: nat, size: nat, final: bool)

  /** Why the invocation must end whatever the handler returns. */
  datatype Halt = TokenWithdrawn | Failure(cause: nat)

  /** What a request learns on its done channel. */
  datatype Outcome = Recorded | Refused | ContextEnded | CallFailed(cause: nat)

  /**
    The fields of the checkpointer, and the outcomes sent so far. Idle channels are numbered: `registered` were made,
    and those below `closed` are closed, so idleWaiters holds the rest.
   */
  datatype Core = Core(token: string, queue: seq<Request>, flushing: bool, nextSeq: nat, cutoff: nat, cutoffSet: bool,
                       terminated: bool, haltErr: Option<Halt>, outstanding: int, settled: map<nat, Outcome>,
                       registered: nat, closed: nat) {

    /** sendableLocked: p may be sent after termination. */
    predicate Sendable(p: Request) {
      p.final || (cutoffSet && p.pos < cutoff)
    }

    function Send(p: Request, o: Outcome): Core {
      this.(settled := settled[p.pos := o])
    }

    function Decrement(): Core {
      this.(outstanding := outstanding - 1)
    }

    function CloseIdle(): Core {
      this.(closed := registered)
    }

    /** deliver, when nothing happens between its three steps. */
    function Deliver(p: Request, o: Outcome): Core {
      var c := Send(p, o).Decrement();
      if c.outstanding == 0 then c.CloseIdle() else c
    }

    /** The critical section of awaitIdle: nothing to wait for, or a new channel. */
    function AwaitIdle(): (Core, Option<nat>) {
      if outstanding == 0 then (this, None) else (this.(registered := registered + 1), Some(registered))
    }

    function DeliverAll(drops: seq<Drop>): Core
      decreases |drops|
    {
      if drops == [] then this else Deliver(drops[0].request, drops[0].outcome).DeliverAll(drops[1..])
    }

    function Append(updates: nat, size: nat, final: bool): Core {
      this.(queue := queue + [Request(nextSeq, updates, size, final)], nextSeq := nextSeq + 1, flushing := true)
    }

    function Terminate(): Core {
      this.(terminated := true)
    }

    function TerminateAtQueueEnd(): Core {
      if !cutoffSet && !terminated then this.(cutoff := nextSeq, cutoffSet := true, terminated := true)
      else this.(terminated := true)
    }

    function RecordHalt(end: Halt): Core {
      if haltErr.None? then this.(haltErr := Some(end)) else this
    }

    /** refusal, for a batch whose first request is sendable or not. */
    function Refusal(sendable: bool): Option<Outcome> {
      if !terminated then None
      else if !sendable then Some(Refused)
      else match haltErr
        case None => None
        case Some(TokenWithdrawn) => Some(Refused)
        case Some(Failure(cause)) => Some(CallFailed(cause))
    }

    function Take(ended: set<nat>): Taken {
      TakeFrom(queue, [], 0, |token| + BATCH_OVERHEAD_BYTES, ended)
    }

    /** takeBatchLocked, with the batch collected so far, its update count and its size. */
    function TakeFrom(pending: seq<Request>, batch: seq<Request>, updates: nat, size: nat, ended: set<nat>): Taken
      decreases |pending|
    {
      if pending == [] then Taken(batch, [], [])
      else
        var p := pending[0];
        if p.pos in ended then TakeFrom(pending[1..], batch, updates, size, ended).Dropping(p, ContextEnded)
        else if terminated && !Sendable(p) then TakeFrom(pending[1..], batch, updates, size, ended).Dropping(p, Refused)
        else if batch != [] && Overflows(updates, size, p) then Taken(batch, [], pending)
        else TakeFrom(pending[1..], batch + [p], updates + p.updates, size + p.size, ended)
    }

    function AfterTake(ended: set<nat>): Core {
      this.(queue := Take(ended).rest).DeliverAll(Take(ended).drops)
    }
  }

  datatype Drop = Drop(request: Request, outcome: Outcome)

  /** The batch, the requests settled without a call, and the requests that stay queued. */
  datatype Taken = Taken(batch: seq<Request>, drops: seq<Drop>, rest: seq<Request>) {
    ghost function Preceded(d: seq<Drop>): Taken {
      this.(drops := d + drops)
    }

    function Dropping(p: Request, o: Outcome): Taken {
      this.(drops := [Drop(p, o)] + drops)
    }
  }

  predicate Overflows(updates: nat, size: nat, p: Request) {
    size + p.size > BATCH_LIMIT_BYTES || updates + p.updates > MAX_BATCH_UPDATES
  }

  function SizeOf(batch: seq<Request>): nat {
    if batch == [] then 0 else SizeOf(batch[..|batch| - 1]) + batch[|batch| - 1].size
  }

  function UpdatesOf(batch: seq<Request>): nat {
    if batch == [] then 0 else UpdatesOf(batch[..|batch| - 1]) + batch[|batch| - 1].updates
  }

  /** A call carries one request, or stays within both limits. */
  predicate WithinLimits(batch: seq<Request>, token: string) {
    |batch| == 1 ||
    (|token| + BATCH_OVERHEAD_BYTES + SizeOf(batch) <= BATCH_LIMIT_BYTES && UpdatesOf(batch) <= MAX_BATCH_UPDATES)
  }

  function Seqs(batch: seq<Request>): set<nat> {
    set r | r in batch :: r.pos
  }

  function DroppedSeqs(drops: seq<Drop>): set<nat> {
    set d | d in drops :: d.request.pos
  }

  // ----- the object -----

  class CheckpointerObject {
    var token: string
    var queue: seq<Request>
    var flushing: bool
    var nextSeq: nat
    var cutoff: nat
    var cutoffSet: bool
    var terminated: bool
    var haltErr: Option<Halt>
    var outstanding: int
    var settled: map<nat, Outcome>
    var registered: nat
    var closed: nat

    constructor (initialToken: string)
      ensures View() == Core(initialToken, [], false, 0, 0, false, false, None, 0, map[], 0, 0)
    {
      token, queue, flushing, nextSeq, cutoff, cutoffSet := initialToken, [], false, 0, 0, false;
      terminated, haltErr, outstanding, settled, registered, closed := false, None, 0, map[], 0, 0;
    }

    function View(): Core
      reads this
    {
      Core(token, queue, flushing, nextSeq, cutoff, cutoffSet, terminated, haltErr, outstanding, settled, registered,
           closed)
    }

    /** The critical section of submit; outstanding was raised before it. */
    method Append(updates: nat, size: nat, final: bool) returns (p: Request, start: bool)
      modifies this
      ensures View() == old(View()).Append(updates, size, final)
      ensures p == Request(old(nextSeq), updates, size, final) && start == !old(flushing)
    {
      p := Request(nextSeq, updates, size, final);
      nextSeq := nextSeq + 1;
      queue := queue + [p];
      start := !flushing;
      flushing := true;
    }

    /** p.done receives the outcome. */
    method Send(p: Request, o: Outcome)
      modifies this
      ensures View() == old(View()).Send(p, o)
    {
      settled := settled[p.pos := o];
    }

    method Decrement() returns (last: bool)
      modifies this
      ensures View() == old(View()).Decrement() && last == (outstanding == 0)
    {
      outstanding := outstanding - 1;
      last := outstanding == 0;
    }

    /** The critical section of deliver: every registered channel is closed. */
    method CloseIdle()
      modifies this
      ensures View() == old(View()).CloseIdle()
    {
      closed := registered;
    }

    /** deliver: other goroutines may run before each of its three steps. */
    method Deliver(p: Request, o: Outcome)
      modifies this
      ensures View() == old(View()).Deliver(p, o)
    {
      Send(p, o);
      var last := Decrement();
      if last {
        CloseIdle();
      }
    }

    method AwaitIdle() returns (channel: Option<nat>)
      modifies this
      ensures (View(), channel) == old(View()).AwaitIdle()
    {
      if outstanding == 0 {
        return None;
      }
      channel := Some(registered);
      registered := registered + 1;
    }

    method Terminate()
      modifies this
      ensures View() == old(View()).Terminate()
    {
      terminated := true;
    }

    method TerminateAtQueueEnd()
      modifies this
      ensures View() == old(View()).TerminateAtQueueEnd()
    {
      if !cutoffSet && !terminated {
        cutoff := nextSeq;
        cutoffSet := true;
      }
      terminated := true;
    }

    /** The critical section of halt; terminate follows it. */
    method RecordHalt(end: Halt) returns (recorded: bool)
      modifies this
      ensures View() == old(View()).RecordHalt(end)
      ensures recorded == old(haltErr.None?)
      ensures haltErr == if old(haltErr.None?) then Some(end) else old(haltErr)
    {
      recorded := haltErr.None?;
      if recorded {
        haltErr := Some(end);
      }
    }

    /**
      A batch may be sent unless the checkpointer is terminated and either the batch belongs after the cutoff or the
      service has stopped accepting calls; a failed call's cause is passed on, a withdrawn token is a plain refusal.
     */
    method Refusal(sendable: bool) returns (r: Option<Outcome>)
      ensures r.None? <==> !terminated || (sendable && haltErr.None?)
      ensures r == Some(Refused) <==> terminated && (!sendable || haltErr == Some(TokenWithdrawn))
      ensures forall cause ::
        r == Some(CallFailed(cause)) <==> terminated && sendable && haltErr == Some(Failure(cause))
      ensures r == View().Refusal(sendable)
    {
      if !terminated {
        return None;
      }
      if !sendable {
        return Some(Refused);
      }
      match haltErr {
        case None => r := None;
        case Some(TokenWithdrawn) => r := Some(Refused);
        case Some(Failure(cause)) => r := Some(CallFailed(cause));
      }
    }

    /** Why a queued request is settled without a call, if it is. */
    function DropReason(p: Request, ended: set<nat>): Option<Outcome>
      reads this
    {
      if p.pos in ended then Some(ContextEnded)
      else if terminated && !(p.final || (cutoffSet && p.pos < cutoff)) then Some(Refused)
      else None
    }

    /** The loop: requests leave the head of the queue until one does not fit, or none is left. */
    method Assemble(ended: set<nat>) returns (batch: seq<Request>, consumed: nat, ghost drops: seq<Drop>)
      modifies this
      ensures consumed <= |queue| && queue == old(queue) && token == old(token)
      ensures View() == old(View()).DeliverAll(drops)
      ensures old(View()).Take(ended) == Taken(batch, drops, queue[consumed..])
    {
      ghost var before := View();
      var updates: nat, size: nat := 0, |token| + BATCH_OVERHEAD_BYTES;
      batch, consumed, drops := [], 0, [];
      PrecededNone(before.Take(ended));
      while consumed < |queue|
        invariant 0 <= consumed <= |queue|
        invariant queue == before.queue && token == before.token && View() == before.DeliverAll(drops)
        invariant terminated == before.terminated && cutoffSet == before.cutoffSet && cutoff == before.cutoff
        invariant before.Take(ended) == before.TakeFrom(queue[consumed..], batch, updates, size, ended).Preceded(drops)
      {
        var p := queue[consumed];
        assert queue[consumed..][1..] == queue[consumed + 1..];
        var drop := DropReason(p, ended);
        if drop.Some? {
          TakeDrops(before, queue[consumed..], batch, updates, size, ended, drops, Drop(p, drop.value));
          drops := drops + [Drop(p, drop.value)];
          Deliver(p, drop.value);
          consumed := consumed + 1;
        } else if |batch| > 0 && (size + p.size > BATCH_LIMIT_BYTES || updates + p.updates > MAX_BATCH_UPDATES) {
          TakeStops(before, queue[consumed..], batch, updates, size, ended, drops);
          return;
        } else {
          TakeAdds(before, queue[consumed..], batch, updates, size, ended);
          batch := batch + [p];
          updates := updates + p.updates;
          size := size + p.size;
          consumed := consumed + 1;
        }
      }
      TakeStops(before, queue[consumed..], batch, updates, size, ended, drops);
    }

    method TakeBatchLocked(ended: set<nat>) returns (batch: seq<Request>, sendToken: string)
      modifies this
      ensures batch == old(View().Take(ended)).batch && sendToken == token
      ensures View() == old(View()).AfterTake(ended)
    {
      ghost var before := View();
      var consumed: nat;
      ghost var drops: seq<Drop>;
      batch, consumed, drops := Assemble(ended);
      DeliverAllQueue(before, drops, queue[consumed..]);
      queue := queue[consumed..];
      sendToken := token;
    }
  }

  lemma PrecededNone(t: Taken)
    ensures t.Preceded([]) == t
  {
    assert [] + t.drops == t.drops;
  }

  lemma TakeStops(c: Core, pending: seq<Request>, batch: seq<Request>, updates: nat, size: nat, ended: set<nat>,
                  drops: seq<Drop>)
    requires pending == [] || (pending[0].pos !in ended && (c.terminated ==> c.Sendable(pending[0])) &&
                               batch != [] && Overflows(updates, size, pending[0]))
    ensures c.TakeFrom(pending, batch, updates, size, ended).Preceded(drops) == Taken(batch, drops, pending)
  {
    assert drops + [] == drops;
  }

  lemma TakeAdds(c: Core, pending: seq<Request>, batch: seq<Request>, updates: nat, size: nat, ended: set<nat>)
    requires pending != [] && pending[0].pos !in ended && (c.terminated ==> c.Sendable(pending[0]))
    requires batch == [] || !Overflows(updates, size, pending[0])
    ensures c.TakeFrom(pending, batch, updates, size, ended) ==
            c.TakeFrom(pending[1..], batch + [pending[0]], updates + pending[0].updates, size + pending[0].size, ended)
  {
  }

  lemma TakeDrops(c: Core, pending: seq<Request>, batch: seq<Request>, updates: nat, size: nat, ended: set<nat>,
                  drops: seq<Drop>, d: Drop)
    requires pending != [] && d.request == pending[0]
    requires d.outcome == if d.request.pos in ended then ContextEnded else Refused
    requires d.request.pos in ended || (c.terminated && !c.Sendable(d.request))
    ensures c.TakeFrom(pending, batch, updates, size, ended).Preceded(drops) ==
            c.TakeFrom(pending[1..], batch, updates, size, ended).Preceded(drops + [d])
    ensures c.DeliverAll(drops + [d]) == c.DeliverAll(drops).Deliver(d.request, d.outcome)
  {
    DeliverAllAppend(c, drops, d);
    PrecededDropping(c.TakeFrom(pending[1..], batch, updates, size, ended), drops, d);
  }

  lemma PrecededDropping(t: Taken, drops: seq<Drop>, d: Drop)
    ensures t.Dropping(d.request, d.outcome).Preceded(drops) == t.Preceded(drops + [d])
  {
    assert drops + ([d] + t.drops) == (drops + [d]) + t.drops;
  }

  /** Delivering outcomes changes neither the queue nor anything that decides what may be sent. */
  ghost predicate SameSettings(a: Core, b: Core) {
    b == a.(outstanding := b.outstanding, settled := b.settled, closed := b.closed)
  }

  lemma {:induction false} DeliverAllAppend(c: Core, drops: seq<Drop>, d: Drop)
    ensures c.DeliverAll(drops + [d]) == c.DeliverAll(drops).Deliver(d.request, d.outcome)
    ensures SameSettings(c, c.DeliverAll(drops))
    decreases |drops|
  {
    if drops == [] {
      assert c.DeliverAll([d]) == c.Deliver(d.request, d.outcome).DeliverAll([]);
    } else {
      assert (drops + [d])[1..] == drops[1..] + [d];
      DeliverAllAppend(c.Deliver(drops[0].request, drops[0].outcome), drops[1..], d);
    }
  }

  lemma {:induction false} DeliverAllQueue(c: Core, drops: seq<Drop>, q: seq<Request>)
    ensures c.(queue := q).DeliverAll(drops) == c.DeliverAll(drops).(queue := q)
    decreases |drops|
  {
    if drops != [] {
      DeliverAllQueue(c.Deliver(drops[0].request, drops[0].outcome), drops[1..], q);
    }
  }
}
