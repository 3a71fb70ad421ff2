/** The sequential path: it answers what the coordinator answers when one item may run at a time. */
module BatchSequential {
  import opened BatchPolicy
  import opened BatchCoordinator
  import opened BatchTheorems

  function First(status: seq<ItemStatus>, k: nat): seq<Report>
    requires k <= |status|
  {
    seq(k, i requires 0 <= i < k => Report(i, status[i]))
  }

  function Upto(k: nat): seq<nat> {
    seq(k, i => i)
  }

  /** k items were accepted and none is running. */
  function Between(k: nat, status: seq<ItemStatus>): Coordinator {
    Coordinator(k, k, {}, 0, status, Upto(k), {}, false, AllCompleted, None, false)
  }

  /** k items were accepted and item k is running. */
  function Running(k: nat, status: seq<ItemStatus>): Coordinator
    requires k < |status|
  {
    Coordinator(k + 1, k + 1, {k}, 1, status[k := Started], Upto(k), {}, false, AllCompleted, None, false)
  }

  /** What the sequential loop answers from item k on, or the coordinator once nothing runs. */
  ghost predicate Agrees(u: Setup, c: Coordinator, work: nat -> Work, k: nat, status: seq<ItemStatus>)
    requires k <= |status| == u.total
  {
    if c.inFlight == {} then Finish(c) == Sequential(u, work, k, status, First(status, k))
    else k < u.total && c == Running(k, status)
  }

  lemma UptoHolds(k: nat)
    ensures forall j: nat :: j in Upto(k) <==> j < k
  {
    forall j: nat | j < k ensures j in Upto(k) {
      assert Upto(k)[j] == j;
    }
  }

  lemma {:induction false} AssembleFirst(c: Coordinator, i: nat, k: nat)
    requires i <= k == c.started <= |c.status| && c.accepted == Upto(k)
    ensures Assemble(c, i) == First(c.status, k)[i..]
    decreases |c.status| - i
  {
    UptoHolds(k);
    if i < k {
      AssembleFirst(c, i + 1, k);
    } else {
      AssembleNone(c, i);
    }
  }

  lemma {:induction false} AssembleNone(c: Coordinator, i: nat)
    requires c.started <= i <= |c.status| && (forall j: nat :: i <= j < |c.status| ==> j !in c.accepted)
    ensures Assemble(c, i) == []
    decreases |c.status| - i
  {
    if i < |c.status| {
      AssembleNone(c, i + 1);
    }
  }

  lemma AdmitBetween(u: Setup, work: nat -> Work, k: nat, status: seq<ItemStatus>)
    requires u.concurrency == 1 && k <= u.total == |status|
    ensures Shaped(u, Between(k, status)) && Agrees(u, Admit(u, Between(k, status)), work, k, status)
  {
    var c := Between(k, status);
    if k == u.total {
      AssembleFirst(c, 0, k);
      assert First(status, k)[0..] == First(status, k);
    } else {
      assert Admit(u, c) == Admit(u, AdmitOne(u, c)) == AdmitOne(u, c);
    }
  }

  lemma ReceiveRunning(u: Setup, work: nat -> Work, k: nat, status: seq<ItemStatus>) returns (after: seq<ItemStatus>)
    requires u.concurrency == 1 && k < u.total == |status|
    ensures |after| == u.total && Shaped(u, Running(k, status))
    ensures var c := Step(u, Running(k, status), Arrival(k, work(k)));
            if work(k).Item? && Judge(u.policy, status[k := if work(k).ok then Succeeded else Failed]).GoOn?
            then after == status[k := if work(k).ok then Succeeded else Failed] && c == Admit(u, Between(k + 1, after))
            else c.inFlight == {} && (u.startRefused(k) ||
                                      Finish(c) == Sequential(u, work, k, status, First(status, k)))
  {
    var c := Running(k, status);
    after := status;
    if work(k).Item? {
      var s := if work(k).ok then Succeeded else Failed;
      after := status[k := s];
      assert c.status[k := s] == after && Upto(k) + [k] == Upto(k + 1) && c.inFlight - {k} == {};
      var d := Receive(u, c, Arrival(k, work(k)));
      if d.locked {
        AssembleFirst(d, 0, k + 1);
        assert First(after, k + 1)[0..] == First(status, k) + [Report(k, s)];
      }
    }
  }

  lemma StepAgrees(u: Setup, work: nat -> Work, k: nat, status: seq<ItemStatus>)
    returns (next: nat, after: seq<ItemStatus>)
    requires u.concurrency == 1 && k < u.total == |status| && !u.startRefused(k)
    ensures Shaped(u, Running(k, status)) && next <= |after| == u.total
    ensures Agrees(u, Step(u, Running(k, status), Arrival(k, work(k))), work, next, after)
    ensures Sequential(u, work, next, after, First(after, next)) == Sequential(u, work, k, status, First(status, k))
  {
    after := ReceiveRunning(u, work, k, status);
    next := k;
    var s := if work(k).Item? && work(k).ok then Succeeded else Failed;
    if work(k).Item? && Judge(u.policy, status[k := s]).GoOn? {
      assert First(after, k + 1) == First(status, k) + [Report(k, s)];
      next := k + 1;
      AdmitBetween(u, work, next, after);
    } else {
      after := status;
    }
  }

  lemma RunningIsAdmitted(u: Setup, arrivals: seq<Arrival>, k: nat, status: seq<ItemStatus>)
    requires Valid(u, arrivals) && k < |status| && Run(u, arrivals) == Running(k, status)
    ensures !u.startRefused(k)
  {
    RefusedNeverStarts(u, arrivals, k);
  }

  lemma {:induction false} AdmitSkipsRefused(u: Setup, c: Coordinator, i: nat)
    requires Shaped(u, c) && (i < c.started ==> !u.startRefused(i))
    ensures i < Admit(u, c).started ==> !u.startRefused(i)
    decreases u.total - c.next
  {
    if MayAdmit(u, c) {
      AdmitSkipsRefused(u, AdmitOne(u, c), i);
    }
  }

  /** No item whose START was refused is ever dispatched. */
  lemma {:induction false} RefusedNeverStarts(u: Setup, arrivals: seq<Arrival>, i: nat)
    requires Valid(u, arrivals)
    ensures i < Run(u, arrivals).started ==> !u.startRefused(i)
    decreases |arrivals|
  {
    if arrivals == [] {
      AdmitSkipsRefused(u, Fresh(u), i);
    } else {
      var n := |arrivals| - 1;
      RefusedNeverStarts(u, arrivals[..n], i);
      StepShape(u, Run(u, arrivals[..n]), arrivals[n]);
      AdmitSkipsRefused(u, Receive(u, Run(u, arrivals[..n]), arrivals[n]), i);
    }
  }

  lemma {:induction false} SequentialAgrees(u: Setup, arrivals: seq<Arrival>, work: nat -> Work)
    returns (k: nat, status: seq<ItemStatus>)
    requires u.concurrency == 1 && Valid(u, arrivals)
    requires forall i :: 0 <= i < |arrivals| ==> arrivals[i].work == work(arrivals[i].index)
    ensures k <= |status| == u.total && Agrees(u, Run(u, arrivals), work, k, status)
    ensures Sequential(u, work, k, status, First(status, k)) ==
            Sequential(u, work, 0, seq(u.total, _ => NotStarted), [])
    decreases |arrivals|
  {
    if arrivals == [] {
      k, status := 0, seq(u.total, _ => NotStarted);
      AdmitBetween(u, work, 0, status);
      assert First(status, 0) == [];
    } else {
      var n := |arrivals| - 1;
      k, status := SequentialAgrees(u, arrivals[..n], work);
      RunningIsAdmitted(u, arrivals[..n], k, status);
      assert arrivals[n] == Arrival(k, work(k));
      k, status := StepAgrees(u, work, k, status);
    }
  }

  /** With one slot the coordinator and the sequential path give the same result, error or suspension. */
  lemma SequentialIsOneSlot(u: Setup, arrivals: seq<Arrival>, work: nat -> Work)
    requires u.concurrency == 1 && Valid(u, arrivals) && Run(u, arrivals).inFlight == {}
    requires forall i :: 0 <= i < |arrivals| ==> arrivals[i].work == work(arrivals[i].index)
    ensures Finish(Run(u, arrivals)) == Sequential(u, work, 0, seq(u.total, _ => NotStarted), [])
  {
    var k, status := SequentialAgrees(u, arrivals, work);
  }
}
