/** The batch loop as the calling goroutine runs it: both paths, over outcomes that arrive in any order. */
module BatchLoop {
  import opened BatchPolicy
  import opened BatchCoordinator
  import opened BatchTheorems

  class Loop {
    const setup: Setup
    const decider: Decider
    var nextToAdmit: nat
    var started: nat
    var inFlight: set<nat>
    var slotsUsed: int
    var accepted: seq<nat>
    var suspended: set<nat>
    var reasonLocked: bool
    var reason: Reason
    var fatalErr: Option<Fatal>
    var admitErr: bool

    constructor (u: Setup)
      ensures fresh(decider) && setup == u && Ready() && View() == Fresh(u)
    {
      setup := u;
      decider := new Decider(u.policy, u.total);
      nextToAdmit, started, inFlight, slotsUsed, accepted, suspended := 0, 0, {}, 0, [], {};
      reasonLocked, reason, fatalErr, admitErr := false, AllCompleted, None, false;
    }

    function View(): Coordinator
      reads this, decider
    {
      Coordinator(nextToAdmit, started, inFlight, slotsUsed, decider.status, accepted, suspended, reasonLocked, reason,
                  fatalErr, admitErr)
    }

    ghost predicate Ready()
      reads this, decider
    {
      decider.Valid() && decider.policy == setup.policy && Inv(setup, View())
    }

    method AdmitNext()
      requires Ready() && MayAdmit(setup, View())
      modifies this, decider
      ensures Ready() && View() == AdmitOne(setup, old(View()))
    {
      AdmitOneKeeps(setup, View());
      assert ItemInv(View(), nextToAdmit);
      var i := nextToAdmit;
      nextToAdmit := nextToAdmit + 1;
      if setup.startRefused(i) {
        admitErr := true;
      } else {
        started := started + 1;
        decider.Start(i);
        inFlight := inFlight + {i};
        slotsUsed := slotsUsed + 1;
      }
    }

    method AdmitItems()
      requires Ready()
      modifies this, decider
      ensures Ready() && View() == Admit(setup, old(View()))
    {
      ghost var goal := Admit(setup, View());
      while nextToAdmit < setup.total && slotsUsed < setup.concurrency && !reasonLocked && !admitErr
        invariant Ready() && Admit(setup, View()) == goal
        decreases setup.total - nextToAdmit
      {
        AdmitNext();
      }
    }

    method ReceiveOutcome(a: Arrival)
      requires Ready() && a.index in inFlight && a.index < setup.total
      modifies this, decider
      ensures Ready() && View() == Receive(setup, old(View()), a)
    {
      ReceiveKeeps(setup, View(), a);
      assert ItemInv(View(), a.index);
      inFlight := inFlight - {a.index};
      match a.work {
        case Suspends =>
          suspended := suspended + {a.index};
        case Breaks(error) =>
          Break(error);
        case Item(ok) =>
          if reasonLocked {
            slotsUsed := slotsUsed - 1;
          } else {
            AcceptOutcome(a.index, ok);
          }
      }
    }

    /** The first fatal error is kept. */
    method Break(error: nat)
      modifies this
      ensures View() == FirstFatal(old(View()).(slots := old(slotsUsed) - 1), WorkerError(error))
    {
      slotsUsed := slotsUsed - 1;
      if fatalErr.None? {
        fatalErr := Some(WorkerError(error));
      }
    }

    /** A terminal outcome that arrives before the reason is fixed. */
    method AcceptOutcome(i: nat, ok: bool)
      requires decider.Valid() && decider.policy == setup.policy
      requires i < |decider.status| && !decider.status[i].Succeeded? && !decider.status[i].Failed?
      modifies this, decider
      ensures decider.Valid() && View() == Accept(setup, old(View()), i, ok)
    {
      slotsUsed := slotsUsed - 1;
      accepted := accepted + [i];
      var v := decider.Terminal(i, ok);
      match v {
        case GoOn =>
        case Broken =>
          if fatalErr.None? {
            fatalErr := Some(PolicyError);
          }
        case Stop(r) =>
          reason := r;
          reasonLocked := true;
      }
    }

    /** The arrivals are whatever the workers report; `oracle` stands for the channel they arrive on. */
    method RunToEnd(oracle: seq<Arrival> -> Arrival) returns (arrivals: seq<Arrival>, out: Outcome)
      requires Ready() && View() == Fresh(setup)
      requires forall past :: Valid(setup, past) && Run(setup, past).inFlight != {} ==>
                 oracle(past).index in Run(setup, past).inFlight
      modifies this, decider
      ensures Valid(setup, arrivals) && Run(setup, arrivals).inFlight == {} && out == Finish(Run(setup, arrivals))
      ensures var c := Run(setup, arrivals);
              (out.StartRefused? <==> c.admitErr) && (out.BatchFailed? <==> !c.admitErr && c.fatal.Some?) &&
              (out.Suspended? <==> !c.admitErr && c.fatal.None? && !c.locked && c.suspended != {})
      ensures forall i :: 0 <= i < |arrivals| ==> arrivals[i] == oracle(arrivals[..i])
    {
      arrivals := [];
      AdmitItems();
      while inFlight != {}
        invariant Ready() && Valid(setup, arrivals) && View() == Run(setup, arrivals)
        invariant forall i :: 0 <= i < |arrivals| ==> arrivals[i] == oracle(arrivals[..i])
        decreases setup.total - |arrivals|
      {
        var a := oracle(arrivals);
        assert forall i :: 0 <= i < |arrivals| ==> (arrivals + [a])[..i] == arrivals[..i];
        assert (arrivals + [a])[..|arrivals|] == arrivals;
        Round(a, arrivals);
        arrivals := arrivals + [a];
      }
      out := Conclude();
    }

    /** One round of the loop; `past` is what it received before. */
    method Round(a: Arrival, ghost past: seq<Arrival>)
      requires Ready() && Valid(setup, past) && View() == Run(setup, past) && a.index in inFlight
      modifies this, decider
      ensures Ready() && Valid(setup, past + [a]) && View() == Run(setup, past + [a])
      ensures |past| < setup.total
    {
      ReceiveKeeps(setup, View(), a);
      ExtendRun(setup, past, a);
      ReceiveOutcome(a);
      if fatalErr.None? {
        AdmitItems();
      }
    }

    method Conclude() returns (out: Outcome)
      requires Ready()
      ensures out == Finish(View())
      ensures out.StartRefused? <==> admitErr
      ensures out.BatchFailed? <==> !admitErr && fatalErr.Some?
      ensures out.Suspended? <==> !admitErr && fatalErr.None? && !reasonLocked && suspended != {}
    {
      if admitErr {
        return StartRefused;
      }
      if fatalErr.Some? {
        return BatchFailed(fatalErr.value);
      }
      if !reasonLocked && suspended != {} {
        return Suspended;
      }
      var items := AssembleItems();
      out := Completed(items, reason);
    }

    method AssembleItems() returns (items: seq<Report>)
      requires Ready()
      ensures items == Assemble(View(), 0)
    {
      items := [];
      var i := 0;
      while i < setup.total
        invariant 0 <= i <= setup.total && items + Assemble(View(), i) == Assemble(View(), 0)
      {
        ghost var before, later := items, Assemble(View(), i + 1);
        assert ItemInv(View(), i);
        if i in accepted {
          items := items + [Report(i, decider.status[i])];
          assert before + ([Report(i, decider.status[i])] + later) == items + later;
        } else if i < started {
          items := items + [Report(i, Started)];
          assert before + ([Report(i, Started)] + later) == items + later;
        }
        i := i + 1;
      }
    }
  }

  lemma ExtendRun(u: Setup, past: seq<Arrival>, a: Arrival)
    requires Valid(u, past) && a.index in Run(u, past).inFlight && a.index < u.total
    ensures Valid(u, past + [a]) && Run(u, past + [a]) == Step(u, Run(u, past), a) && |past| < u.total
  {
    assert (past + [a])[..|past|] == past;
    ReportsOnce(u, past + [a]);
    RunKeeps(u, past + [a]);
  }

  /** concurrency == 1: no goroutine, and the first error ends the batch. */
  method RunSequentially(u: Setup, work: nat -> Work) returns (out: Outcome)
    ensures out == Sequential(u, work, 0, seq(u.total, _ => NotStarted), [])
  {
    var decider := new Decider(u.policy, u.total);
    var items: seq<Report> := [];
    var i := 0;
    while i < u.total
      invariant 0 <= i <= u.total && decider.Valid() && fresh(decider) && decider.policy == u.policy
      invariant |decider.status| == u.total && forall k :: i <= k < u.total ==> decider.status[k].NotStarted?
      invariant Sequential(u, work, 0, seq(u.total, _ => NotStarted), []) ==
                Sequential(u, work, i, decider.status, items)
    {
      if u.startRefused(i) {
        return StartRefused;
      }
      var w := work(i);
      match w {
        case Suspends => return Suspended;
        case Breaks(error) => return BatchFailed(WorkerError(error));
        case Item(ok) =>
          var v := decider.Terminal(i, ok);
          items := items + [Report(i, if ok then Succeeded else Failed)];
          match v {
            case GoOn =>
            case Broken => return BatchFailed(PolicyError);
            case Stop(r) => return Completed(items, r);
          }
      }
      i := i + 1;
    }
    out := Completed(items, AllCompleted);
  }

  /** executeBatchItems: the policy may end the batch before any item; then one of the two paths runs. */
  method ExecuteBatch(u: Setup, work: nat -> Work, oracle: seq<Arrival> -> Arrival)
    returns (out: Outcome, arrivals: seq<Arrival>)
    requires forall past :: Valid(u, past) && Run(u, past).inFlight != {} ==>
             oracle(past).index in Run(u, past).inFlight
    ensures match JudgeInitially(u.policy, u.total)
            case Broken => out == BatchFailed(PolicyError)
            case Stop(r) => out == Completed([], r)
            case GoOn =>
              if u.concurrency == 1 then out == Sequential(u, work, 0, seq(u.total, _ => NotStarted), [])
              else Valid(u, arrivals) && Run(u, arrivals).inFlight == {} && out == Finish(Run(u, arrivals))
  {
    arrivals := [];
    var decider := new Decider(u.policy, u.total);
    var v := decider.Initial();
    match v {
      case Broken => out := BatchFailed(PolicyError);
      case Stop(r) => out := Completed([], r);
      case GoOn =>
        if u.concurrency == 1 {
          out := RunSequentially(u, work);
        } else {
          var loop := new Loop(u);
          arrivals, out := loop.RunToEnd(oracle);
        }
    }
  }
}
