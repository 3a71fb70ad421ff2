/** The completion policy of a batch and the decider that judges it after every item outcome. */
module BatchPolicy {

  datatype Option<+T> = None | Some(value: T)

  datatype ItemStatus = NotStarted | Started | Succeeded | Failed

  datatype Reason = AllCompleted | MinSuccessfulReached | FailureToleranceExceeded | CustomSucceeded | CustomFailed

  /** What a ShouldComplete callback answers; a panic is recovered by the caller. */
  datatype Decision = KeepGoing | Complete(outcome: int) | Panicked

  datatype Progress = Progress(total: nat, completed: nat, successes: nat, failures: nat, items: seq<ItemStatus>)

  /** A threshold policy or a custom callback; validate refuses a config that sets both. */
  datatype Policy =
    | Threshold(minSuccessful: int, toleratedCount: Option<int>, toleratedPercentage: Option<int>)
    | Custom(shouldComplete: Progress -> Decision)

  datatype Verdict = GoOn | Stop(reason: Reason) | Broken

  const OUTCOME_SUCCEEDED := 1
  const OUTCOME_FAILED := 2

  function Count(status: seq<ItemStatus>, x: ItemStatus): nat {
    if status == [] then 0 else Count(status[..|status| - 1], x) + (if status[|status| - 1] == x then 1 else 0)
  }

  // ----- what the policy says about a status vector -----

  predicate HasThreshold(p: Policy)
    requires p.Threshold?
  {
    p.minSuccessful > 0 || p.toleratedCount.Some? || p.toleratedPercentage.Some?
  }

  /** More items failed than the policy tolerates; with no threshold at all, any failure is one too many. */
  predicate Intolerable(p: Policy, failures: nat, total: nat)
    requires p.Threshold?
  {
    if !HasThreshold(p) then failures > 0
    else (p.toleratedCount.Some? && failures > p.toleratedCount.value) ||
         (p.toleratedPercentage.Some? && total > 0 && failures * 100 > p.toleratedPercentage.value * total)
  }

  predicate EnoughSucceeded(p: Policy, successes: nat)
    requires p.Threshold?
  {
    p.minSuccessful > 0 && successes >= p.minSuccessful
  }

  function ThresholdVerdict(p: Policy, successes: nat, failures: nat, total: nat): Verdict
    requires p.Threshold?
  {
    if successes + failures < total && EnoughSucceeded(p, successes) then Stop(MinSuccessfulReached)
    else if Intolerable(p, failures, total) then Stop(FailureToleranceExceeded)
    else GoOn
  }

  function CustomVerdict(d: Decision): Verdict {
    match d
    case KeepGoing => GoOn
    case Panicked => Broken
    case Complete(o) =>
      if o == OUTCOME_SUCCEEDED then Stop(CustomSucceeded)
      else if o == OUTCOME_FAILED then Stop(CustomFailed)
      else Broken
  }

  function ProgressOf(status: seq<ItemStatus>): Progress {
    var s, f := Count(status, Succeeded), Count(status, Failed);
    Progress(|status|, s + f, s, f, status)
  }

  function Judge(p: Policy, status: seq<ItemStatus>): Verdict {
    if p.Threshold? then ThresholdVerdict(p, Count(status, Succeeded), Count(status, Failed), |status|)
    else CustomVerdict(p.shouldComplete(ProgressOf(status)))
  }

  /** The policy before any item runs; only a callback is asked, and not about an empty batch. */
  function JudgeInitially(p: Policy, total: nat): Verdict {
    if p.Threshold? || total == 0 then GoOn else Judge(p, seq(total, _ => NotStarted))
  }

  /** The percentage test is the exact rational comparison. */
  lemma PercentageIsExact(p: Policy, pct: int, failures: nat, total: nat)
    requires total > 0
    ensures Intolerable(Threshold(0, None, Some(pct)), failures, total) <==>
            failures as real / total as real > pct as real / 100.0
  {
    var f, t, q := failures as real, total as real, pct as real;
    assert (f / t) * t == f;
    if f / t > q / 100.0 {
      assert (f / t) * t > (q / 100.0) * t;
      assert f * 100.0 > q * t;
    } else {
      assert (f / t) * t <= (q / 100.0) * t;
      assert f * 100.0 <= q * t;
    }
    assert (failures * 100) as real == f * 100.0;
    assert (pct * total) as real == q * t;
  }

  // ----- counting -----

  lemma {:induction false} CountUpdate(status: seq<ItemStatus>, i: nat, y: ItemStatus, x: ItemStatus)
    requires i < |status|
    ensures Count(status[i := y], x) ==
            Count(status, x) - (if status[i] == x then 1 else 0) + (if y == x then 1 else 0)
  {
    var n := |status| - 1;
    var changed := status[i := y];
    if i == n {
      assert changed[..n] == status[..n];
    } else {
      assert changed[..n] == status[..n][i := y];
      CountUpdate(status[..n], i, y, x);
    }
  }

  lemma {:induction false} CountNone(status: seq<ItemStatus>, x: ItemStatus)
    ensures Count(status, x) <= |status|
    ensures Count(status, x) == 0 <==> x !in status
  {
    if status != [] {
      CountNone(status[..|status| - 1], x);
    }
  }

  /** Successes and failures together reach the total exactly when every item is terminal. */
  lemma {:induction false} CountTerminal(status: seq<ItemStatus>)
    ensures Count(status, Succeeded) + Count(status, Failed) <= |status|
    ensures Count(status, Succeeded) + Count(status, Failed) == |status| <==>
            forall i :: 0 <= i < |status| ==> status[i].Succeeded? || status[i].Failed?
  {
    if status != [] {
      var n := |status| - 1;
      CountTerminal(status[..n]);
      assert (forall i :: 0 <= i < |status| ==> status[i].Succeeded? || status[i].Failed?) ==>
        forall i :: 0 <= i < n ==> status[..n][i].Succeeded? || status[..n][i].Failed?;
    }
  }

  /** A batch whose items all finished never stops early for its successes. */
  lemma MinSuccessfulIsEarly(p: Policy, status: seq<ItemStatus>)
    requires Judge(p, status) == Stop(MinSuccessfulReached)
    ensures exists i :: 0 <= i < |status| && !status[i].Succeeded? && !status[i].Failed?
    ensures p.Threshold? && 0 < p.minSuccessful <= Count(status, Succeeded)
  {
    CountTerminal(status);
  }

  // ----- the verdict, in numbers -----

  function Having(status: seq<ItemStatus>, x: ItemStatus): set<nat> {
    set i: nat | i < |status| && status[i] == x
  }

  lemma {:induction false} CountIsSize(status: seq<ItemStatus>, x: ItemStatus)
    ensures Count(status, x) == |Having(status, x)|
  {
    if status != [] {
      var n := |status| - 1;
      CountIsSize(status[..n], x);
      assert Having(status, x) == Having(status[..n], x) + (if status[n] == x then {n} else {});
    }
  }

  /**
    A threshold policy stops for its successes when enough items succeeded and some item is still open, else for its
    failures when more failed than a count or a share tolerates, or any did where nothing is configured.
   */
  lemma ThresholdVerdictIff(p: Policy, status: seq<ItemStatus>)
    requires p.Threshold?
    ensures var good, bad := |Having(status, Succeeded)|, |Having(status, Failed)|; var all := |status|;
            var early := p.minSuccessful > 0 && good >= p.minSuccessful &&
                         exists i :: 0 <= i < all && !status[i].Succeeded? && !status[i].Failed?;
            var unset := p.minSuccessful <= 0 && p.toleratedCount.None? && p.toleratedPercentage.None?;
            (Judge(p, status) == Stop(MinSuccessfulReached) <==> early) &&
            (Judge(p, status) == Stop(FailureToleranceExceeded) <==>
               !early && ((unset && bad > 0) || (p.toleratedCount.Some? && bad > p.toleratedCount.value) ||
                          (p.toleratedPercentage.Some? && 100 * bad > p.toleratedPercentage.value * all && all > 0))) &&
            (Judge(p, status).GoOn? || Judge(p, status) == Stop(MinSuccessfulReached) ||
             Judge(p, status) == Stop(FailureToleranceExceeded))
  {
    CountIsSize(status, Succeeded);
    CountIsSize(status, Failed);
    CountTerminal(status);
  }

  /** A custom policy decides the batch with one of its two outcomes, and breaks it by a panic or any other. */
  lemma CustomVerdictIff(p: Policy, status: seq<ItemStatus>)
    requires p.Custom?
    ensures var good, bad := |Having(status, Succeeded)|, |Having(status, Failed)|;
            var d := p.shouldComplete(Progress(|status|, good + bad, good, bad, status));
            (Judge(p, status) == Stop(CustomSucceeded) <==> d == Complete(1)) &&
            (Judge(p, status) == Stop(CustomFailed) <==> d == Complete(2)) &&
            (Judge(p, status).GoOn? <==> d.KeepGoing?) &&
            (Judge(p, status).Broken? <==> d.Panicked? || (d.Complete? && d.outcome != 1 && d.outcome != 2))
  {
    CountIsSize(status, Succeeded);
    CountIsSize(status, Failed);
  }

  /** Before any item, only a callback decides, on no results at all, and an empty batch is not put to it. */
  lemma InitialVerdictIff(p: Policy, total: nat)
    ensures p.Threshold? || total == 0 ==> JudgeInitially(p, total).GoOn?
    ensures p.Custom? && total > 0 ==>
              var d := p.shouldComplete(Progress(total, 0, 0, 0, seq(total, _ => NotStarted)));
              (JudgeInitially(p, total).GoOn? <==> d.KeepGoing?) &&
              (JudgeInitially(p, total) == Stop(CustomSucceeded) <==> d == Complete(1)) &&
              (JudgeInitially(p, total) == Stop(CustomFailed) <==> d == Complete(2)) &&
              (JudgeInitially(p, total).Broken? <==> d.Panicked? || (d.Complete? && d.outcome != 1 && d.outcome != 2))
  {
    var status := seq(total, _ => NotStarted);
    CountNone(status, Succeeded);
    CountNone(status, Failed);
  }

  // ----- the decider -----

  class Decider {
    const policy: Policy
    var status: seq<ItemStatus>
    var successCount: nat
    var failureCount: nat

    ghost predicate Valid()
      reads this
    {
      successCount == Count(status, Succeeded) && failureCount == Count(status, Failed)
    }

    constructor (policy: Policy, total: nat)
      ensures Valid() && this.policy == policy && status == seq(total, _ => NotStarted)
    {
      this.policy := policy;
      status := seq(total, _ => NotStarted);
      successCount, failureCount := 0, 0;
      new;
      CountNone(status, Succeeded);
      CountNone(status, Failed);
    }

    /** The item was admitted. */
    method Start(i: nat)
      requires Valid() && i < |status| && status[i].NotStarted?
      modifies this
      ensures Valid() && status == old(status)[i := Started]
    {
      CountUpdate(status, i, Started, Succeeded);
      CountUpdate(status, i, Started, Failed);
      status := status[i := Started];
    }

    /** The item's outcome is recorded; the verdict is the policy's on the new status vector. */
    method Terminal(i: nat, ok: bool) returns (v: Verdict)
      requires Valid() && i < |status| && !status[i].Succeeded? && !status[i].Failed?
      modifies this
      ensures Valid() && status == old(status)[i := if ok then Succeeded else Failed]
      ensures v == Judge(policy, status)
    {
      var outcome := if ok then Succeeded else Failed;
      CountUpdate(status, i, outcome, Succeeded);
      CountUpdate(status, i, outcome, Failed);
      status := status[i := outcome];
      if ok {
        successCount := successCount + 1;
      } else {
        failureCount := failureCount + 1;
      }
      if policy.Threshold? {
        if successCount + failureCount < |status| && EnoughSucceeded(policy, successCount) {
          return Stop(MinSuccessfulReached);
        }
        if Intolerable(policy, failureCount, |status|) {
          return Stop(FailureToleranceExceeded);
        }
        return GoOn;
      }
      v := Consult();
    }

    method Initial() returns (v: Verdict)
      requires Valid() && status == seq(|status|, _ => NotStarted)
      ensures v == JudgeInitially(policy, |status|)
    {
      if policy.Threshold? || |status| == 0 {
        return GoOn;
      }
      v := Consult();
    }

    method Consult() returns (v: Verdict)
      requires Valid() && policy.Custom?
      ensures v == Judge(policy, status)
    {
      var d := policy.shouldComplete(
        Progress(|status|, successCount + failureCount, successCount, failureCount, status));
      if d.Panicked? {
        return Broken;
      }
      if d.KeepGoing? {
        return GoOn;
      }
      v := if d.outcome == OUTCOME_SUCCEEDED then Stop(CustomSucceeded)
      else if d.outcome == OUTCOME_FAILED then Stop(CustomFailed)
      else Broken;
    }
  }
}
