/**
  In which order Any and Race read futures that settle at any time.

  A pass over the pending futures begins when one of them has settled; it looks at each in input order, reads those
  that have settled and keeps the others for the next pass. Every look takes a time of its own.
 */
module ReadOrder {

  /** When each future settles, and how long each look takes, counted over all passes. */
  datatype Schedule = Schedule(settlesAt: nat -> nat, delay: nat -> nat)

  /** Future number f, read at `look` in the pass that began at `start`. */
  datatype Read = Read(f: nat, start: nat, look: nat)

  /** A pass: what it read, what it kept, and the time and the number of looks after it. */
  datatype Pass = Pass(taken: seq<Read>, kept: seq<nat>, now: nat, looks: nat) {
    function Reading(r: Read): Pass {
      this.(taken := [r] + taken)
    }

    function Keeping(f: nat): Pass {
      this.(kept := [f] + kept)
    }

    /** The same pass after it had already read and kept some. */
    ghost function After(read: seq<Read>, keep: seq<nat>): Pass {
      this.(taken := read + taken, kept := keep + kept)
    }
  }

  ghost predicate SomeSettled(sched: Schedule, pending: seq<nat>, t: nat) {
    exists k :: 0 <= k < |pending| && sched.settlesAt(pending[k]) <= t
  }

  /** When the wait for any of the pending futures ends. */
  function Wake(sched: Schedule, pending: seq<nat>, now: nat): (t: nat)
    requires pending != []
    ensures now <= t && SomeSettled(sched, pending, t)
    ensures t == now || forall k :: 0 <= k < |pending| ==> t <= sched.settlesAt(pending[k])
    decreases |pending|
  {
    var last := |pending| - 1;
    var t := if sched.settlesAt(pending[last]) > now then sched.settlesAt(pending[last]) else now;
    if last == 0 then t
    else
      var earlier := Wake(sched, pending[..last], now);
      assert forall k :: 0 <= k < last ==> pending[..last][k] == pending[k];
      if t < earlier then t else earlier
  }

  function PassOver(sched: Schedule, pending: seq<nat>, start: nat, now: nat, looks: nat): (p: Pass)
    ensures |p.taken| + |p.kept| == |pending|
    ensures SomeSettled(sched, pending, now) ==> p.taken != []
    decreases |pending|
  {
    if pending == [] then Pass([], [], now, looks)
    else
      var f, t := pending[0], now + sched.delay(looks);
      var rest := PassOver(sched, pending[1..], start, t, looks + 1);
      assert SomeSettled(sched, pending, now) && sched.settlesAt(f) > t ==> SomeSettled(sched, pending[1..], t) by {
        assert forall k :: 0 < k < |pending| ==> pending[k] == pending[1..][k - 1];
      }
      if sched.settlesAt(f) <= t then rest.Reading(Read(f, start, t)) else rest.Keeping(f)
  }

  function NextPass(sched: Schedule, pending: seq<nat>, now: nat, looks: nat): (p: Pass)
    requires pending != []
    ensures |p.kept| < |pending| && |p.taken| + |p.kept| == |pending|
  {
    var start := Wake(sched, pending, now);
    PassOver(sched, pending, start, start, looks)
  }

  /** Every future in the order it is read when no pass is cut short. */
  function Reads(sched: Schedule, pending: seq<nat>, now: nat, looks: nat): (r: seq<Read>)
    ensures |r| == |pending|
    decreases |pending|
  {
    if pending == [] then []
    else
      var p := NextPass(sched, pending, now, looks);
      p.taken + Reads(sched, p.kept, p.now, p.looks)
  }

  function Inputs(n: nat): seq<nat> {
    seq(n, i => i)
  }

  function Order(sched: Schedule, n: nat): (r: seq<Read>)
    ensures |r| == n
  {
    Reads(sched, Inputs(n), 0, 0)
  }

  // ----- each future is read once -----

  ghost function Futures(r: seq<Read>): seq<nat> {
    seq(|r|, i requires 0 <= i < |r| => r[i].f)
  }

  lemma FuturesOf(a: seq<Read>, b: seq<Read>)
    ensures Futures(a + b) == Futures(a) + Futures(b)
  {
  }

  lemma {:induction false} PassSplits(sched: Schedule, pending: seq<nat>, start: nat, now: nat, looks: nat)
    ensures var p := PassOver(sched, pending, start, now, looks);
            multiset(Futures(p.taken)) + multiset(p.kept) == multiset(pending)
    decreases |pending|
  {
    if pending != [] {
      var f, t := pending[0], now + sched.delay(looks);
      var rest := PassOver(sched, pending[1..], start, t, looks + 1);
      PassSplits(sched, pending[1..], start, t, looks + 1);
      assert pending == [f] + pending[1..];
      FuturesOf([Read(f, start, t)], rest.taken);
      assert Futures([Read(f, start, t)]) == [f];
    }
  }

  lemma {:induction false} ReadsAll(sched: Schedule, pending: seq<nat>, now: nat, looks: nat)
    ensures multiset(Futures(Reads(sched, pending, now, looks))) == multiset(pending)
    decreases |pending|
  {
    if pending != [] {
      var p := NextPass(sched, pending, now, looks);
      var start := Wake(sched, pending, now);
      PassSplits(sched, pending, start, start, looks);
      ReadsAll(sched, p.kept, p.now, p.looks);
      FuturesOf(p.taken, Reads(sched, p.kept, p.now, p.looks));
    }
  }

  lemma {:induction false} InputsOnce(n: nat, x: nat)
    ensures multiset(Inputs(n))[x] == if x < n then 1 else 0
  {
    if n > 0 {
      InputsOnce(n - 1, x);
      assert Inputs(n) == Inputs(n - 1) + [n - 1];
    }
  }

  lemma OccursTwice(s: seq<nat>, i: nat, j: nat)
    requires i < j < |s| && s[i] == s[j]
    ensures multiset(s)[s[i]] >= 2
  {
    assert s == s[..j] + s[j..] && s[..j][i] == s[i] && s[j..][0] == s[j];
    assert s[i] in s[..j] && s[j] in s[j..];
  }

  ghost predicate Distinct(r: seq<Read>) {
    forall i, j :: 0 <= i < j < |r| ==> r[i].f != r[j].f
  }

  ghost predicate Below(r: seq<Read>, n: nat) {
    forall i :: 0 <= i < |r| ==> r[i].f < n
  }

  ghost predicate Lists(r: seq<Read>, f: nat) {
    exists i :: 0 <= i < |r| && r[i].f == f
  }

  /** Every future is read exactly once. */
  lemma OrderIsPermutation(sched: Schedule, n: nat)
    ensures var r := Order(sched, n); Distinct(r) && Below(r, n) && forall f: nat :: Lists(r, f) <==> f < n
  {
    var r := Order(sched, n);
    var fs := Futures(r);
    ReadsAll(sched, Inputs(n), 0, 0);
    forall i, j | 0 <= i < j < |r| ensures r[i].f != r[j].f {
      InputsOnce(n, fs[i]);
      if fs[i] == fs[j] {
        OccursTwice(fs, i, j);
      }
    }
    forall i | 0 <= i < |r| ensures r[i].f < n {
      assert fs[i] in multiset(fs);
      InputsOnce(n, fs[i]);
    }
    forall f: nat | f < n ensures Lists(r, f) {
      InputsOnce(n, f);
      assert f in multiset(fs);
      var i :| 0 <= i < |fs| && fs[i] == f;
    }
  }

  // ----- which future is read before which -----

  ghost predicate Increasing(s: seq<nat>) {
    forall i, j :: 0 <= i < j < |s| ==> s[i] < s[j]
  }

  /** A future is read once it has settled, in a pass that began before. */
  ghost predicate Settled(sched: Schedule, r: Read) {
    r.start <= r.look && sched.settlesAt(r.f) <= r.look
  }

  /** r is read before s: s had not settled when the pass that read r began, or comes later in the same pass. */
  ghost predicate Precedes(sched: Schedule, r: Read, s: Read) {
    r.look <= s.look &&
    (sched.settlesAt(s.f) > r.start || (s.start == r.start && r.f < s.f))
  }

  ghost predicate InOrder(sched: Schedule, r: seq<Read>) {
    forall i, j :: 0 <= i < j < |r| ==> Precedes(sched, r[i], r[j])
  }

  ghost predicate FairRead(sched: Schedule, pending: seq<nat>, start: nat, now: nat, later: nat, r: Read) {
    Settled(sched, r) && r.start == start && now <= r.look <= later && r.f in pending
  }

  /** What one pass reads. */
  ghost predicate FairReads(sched: Schedule, pending: seq<nat>, start: nat, now: nat, p: Pass) {
    now <= p.now && InOrder(sched, p.taken) &&
    forall i :: 0 <= i < |p.taken| ==> FairRead(sched, pending, start, now, p.now, p.taken[i])
  }

  /** What it keeps. */
  ghost predicate FairKept(sched: Schedule, pending: seq<nat>, start: nat, kept: seq<nat>) {
    Increasing(kept) && forall i :: 0 <= i < |kept| ==> kept[i] in pending && sched.settlesAt(kept[i]) > start
  }

  lemma Ascending(pending: seq<nat>)
    requires pending != [] && Increasing(pending)
    ensures Increasing(pending[1..]) && forall g :: g in pending[1..] ==> g in pending && pending[0] < g
  {
    forall g | g in pending[1..] ensures g in pending && pending[0] < g {
      var k :| 0 <= k < |pending[1..]| && pending[1..][k] == g;
      assert pending[k + 1] == g;
    }
  }

  lemma KeepsFair(sched: Schedule, pending: seq<nat>, start: nat, kept: seq<nat>)
    requires pending != [] && Increasing(pending) && FairKept(sched, pending[1..], start, kept)
    ensures FairKept(sched, pending, start, kept)
    ensures sched.settlesAt(pending[0]) > start ==> FairKept(sched, pending, start, [pending[0]] + kept)
  {
    Ascending(pending);
    var more := [pending[0]] + kept;
    forall i, j | 0 <= i < j < |more| ensures more[i] < more[j] {
      assert more[j] == kept[j - 1];
      assert i > 0 ==> more[i] == kept[i - 1];
    }
  }

  lemma ReadsFair(sched: Schedule, pending: seq<nat>, start: nat, now: nat, t: nat, p: Pass)
    requires pending != [] && Increasing(pending) && start <= now <= t && FairReads(sched, pending[1..], start, t, p)
    ensures FairReads(sched, pending, start, now, p)
    ensures sched.settlesAt(pending[0]) <= t ==> FairReads(sched, pending, start, now,
                                                           p.Reading(Read(pending[0], start, t)))
  {
    Ascending(pending);
    forall i | 0 <= i < |p.taken| ensures FairRead(sched, pending, start, now, p.now, p.taken[i]) {
      assert FairRead(sched, pending[1..], start, t, p.now, p.taken[i]);
    }
    if sched.settlesAt(pending[0]) <= t {
      var first := Read(pending[0], start, t);
      var more := [first] + p.taken;
      forall i, j | 0 <= i < j < |more| ensures Precedes(sched, more[i], more[j]) {
        assert more[j] == p.taken[j - 1] && FairRead(sched, pending[1..], start, t, p.now, more[j]);
        assert i > 0 ==> more[i] == p.taken[i - 1];
      }
    }
  }

  lemma {:induction false} PassIsFair(sched: Schedule, pending: seq<nat>, start: nat, now: nat, looks: nat)
    requires Increasing(pending) && start <= now
    ensures FairReads(sched, pending, start, now, PassOver(sched, pending, start, now, looks))
    ensures FairKept(sched, pending, start, PassOver(sched, pending, start, now, looks).kept)
    decreases |pending|
  {
    if pending != [] {
      var t := now + sched.delay(looks);
      var rest := PassOver(sched, pending[1..], start, t, looks + 1);
      Ascending(pending);
      PassIsFair(sched, pending[1..], start, t, looks + 1);
      ReadsFair(sched, pending, start, now, t, rest);
      KeepsFair(sched, pending, start, rest.kept);
    }
  }

  ghost predicate LaterRead(sched: Schedule, pending: seq<nat>, now: nat, r: Read) {
    Settled(sched, r) && now <= r.start && r.f in pending
  }

  ghost predicate LaterReads(sched: Schedule, pending: seq<nat>, now: nat, r: seq<Read>) {
    InOrder(sched, r) && forall i :: 0 <= i < |r| ==> LaterRead(sched, pending, now, r[i])
  }

  /** A pass comes before the passes over what it kept. */
  lemma PassComesFirst(sched: Schedule, pending: seq<nat>, start: nat, p: Pass, r: Read, s: Read)
    requires FairRead(sched, pending, start, start, p.now, r) && LaterRead(sched, p.kept, p.now, s)
    requires FairKept(sched, pending, start, p.kept) && start <= p.now
    ensures Precedes(sched, r, s) && LaterRead(sched, pending, start, r) && LaterRead(sched, pending, start, s)
  {
    var k :| 0 <= k < |p.kept| && p.kept[k] == s.f;
  }

  lemma PassesInOrder(sched: Schedule, pending: seq<nat>, start: nat, p: Pass, rest: seq<Read>)
    requires FairReads(sched, pending, start, start, p) && FairKept(sched, pending, start, p.kept)
    requires LaterReads(sched, p.kept, p.now, rest)
    ensures LaterReads(sched, pending, start, p.taken + rest)
  {
    var r := p.taken + rest;
    forall i, j | 0 <= i < j < |r| ensures Precedes(sched, r[i], r[j]) {
      if j < |p.taken| {
        assert r[j] == p.taken[j] && r[i] == p.taken[i];
      } else if i < |p.taken| {
        PassComesFirst(sched, pending, start, p, p.taken[i], rest[j - |p.taken|]);
      } else {
        assert r[j] == rest[j - |p.taken|] && r[i] == rest[i - |p.taken|];
      }
    }
    forall i | 0 <= i < |r| ensures LaterRead(sched, pending, start, r[i]) {
      if i < |p.taken| {
        assert FairRead(sched, pending, start, start, p.now, r[i]);
      } else {
        KeptIsLater(sched, pending, start, p, rest[i - |p.taken|]);
      }
    }
  }

  lemma KeptIsLater(sched: Schedule, pending: seq<nat>, start: nat, p: Pass, s: Read)
    requires LaterRead(sched, p.kept, p.now, s) && FairKept(sched, pending, start, p.kept) && start <= p.now
    ensures LaterRead(sched, pending, start, s)
  {
    var k :| 0 <= k < |p.kept| && p.kept[k] == s.f;
  }

  lemma Earlier(sched: Schedule, pending: seq<nat>, start: nat, now: nat, r: seq<Read>)
    requires LaterReads(sched, pending, start, r) && now <= start
    ensures LaterReads(sched, pending, now, r)
  {
    forall i | 0 <= i < |r| ensures LaterRead(sched, pending, now, r[i]) {
      assert LaterRead(sched, pending, start, r[i]);
    }
  }

  /**
    Every future is read once it has settled; if another was read before it, it had not settled when the other's pass
    began, or it comes after the other in input order and was read in the same pass.
   */
  lemma {:induction false} ReadsInOrder(sched: Schedule, pending: seq<nat>, now: nat, looks: nat)
    requires Increasing(pending)
    ensures LaterReads(sched, pending, now, Reads(sched, pending, now, looks))
    decreases |pending|
  {
    if pending != [] {
      var start := Wake(sched, pending, now);
      var p := NextPass(sched, pending, now, looks);
      var rest := Reads(sched, p.kept, p.now, p.looks);
      PassIsFair(sched, pending, start, start, looks);
      ReadsInOrder(sched, p.kept, p.now, p.looks);
      PassesInOrder(sched, pending, start, p, rest);
      Earlier(sched, pending, start, now, p.taken + rest);
    }
  }

  lemma OrderTakesTurns(sched: Schedule, n: nat, i: nat, j: nat)
    requires i < j < n
    ensures var r := Order(sched, n); Settled(sched, r[i]) && Settled(sched, r[j]) && Precedes(sched, r[i], r[j])
  {
    ReadsInOrder(sched, Inputs(n), 0, 0);
    var r := Order(sched, n);
    assert LaterRead(sched, Inputs(n), 0, r[i]) && LaterRead(sched, Inputs(n), 0, r[j]);
  }

  // ----- the first future read -----

  lemma FirstPass(sched: Schedule, n: nat)
    requires 0 < n
    ensures var start := Wake(sched, Inputs(n), 0);
            Order(sched, n)[0].start == start
  {
    var start := Wake(sched, Inputs(n), 0);
    var p := NextPass(sched, Inputs(n), 0, 0);
    PassIsFair(sched, Inputs(n), start, start, 0);
    assert Order(sched, n)[0] == p.taken[0] && FairRead(sched, Inputs(n), start, start, p.now, p.taken[0]);
  }

  /** Whatever is first read, no future before it in input order had settled when the waiting ended. */
  lemma FirstReadIsFirstReady(sched: Schedule, n: nat, f: nat)
    requires 0 < n && f < Order(sched, n)[0].f
    ensures sched.settlesAt(f) > Order(sched, n)[0].start
  {
    var r := Order(sched, n);
    OrderIsPermutation(sched, n);
    assert r[0].f < n && Lists(r, f);
    var i :| 0 <= i < |r| && r[i].f == f;
    OrderTakesTurns(sched, n, 0, i);
  }

  // ----- looks that take no time -----

  ghost predicate Prompt(sched: Schedule) {
    forall k :: sched.delay(k) == 0
  }

  lemma {:induction false} PromptPass(sched: Schedule, pending: seq<nat>, start: nat, looks: nat)
    requires Prompt(sched)
    ensures var p := PassOver(sched, pending, start, start, looks);
            p.now == start && forall i :: 0 <= i < |p.taken| ==> p.taken[i].look == start
    decreases |pending|
  {
    if pending != [] {
      PromptPass(sched, pending[1..], start, looks + 1);
    }
  }

  lemma {:induction false} PromptReads(sched: Schedule, pending: seq<nat>, now: nat, looks: nat, i: nat)
    requires Prompt(sched) && Increasing(pending) && i < |pending|
    requires forall k :: 0 <= k < |pending| ==> now <= sched.settlesAt(pending[k])
    ensures var r := Reads(sched, pending, now, looks); r[i].look == r[i].start == sched.settlesAt(r[i].f)
    decreases |pending|
  {
    var start := Wake(sched, pending, now);
    var p := NextPass(sched, pending, now, looks);
    PromptPass(sched, pending, start, looks);
    PassIsFair(sched, pending, start, start, looks);
    if i < |p.taken| {
      assert FairRead(sched, pending, start, start, p.now, p.taken[i]);
      var k :| 0 <= k < |pending| && pending[k] == p.taken[i].f;
    } else {
      PromptReads(sched, p.kept, p.now, p.looks, i - |p.taken|);
    }
  }

  /** If looking takes no time, futures are read in the order they settle, and in input order where they tie. */
  lemma PromptOrderFollowsSettling(sched: Schedule, n: nat, i: nat, j: nat)
    requires Prompt(sched) && i < j < n
    ensures var a, b := Order(sched, n)[i].f, Order(sched, n)[j].f;
            sched.settlesAt(a) < sched.settlesAt(b) || (sched.settlesAt(a) == sched.settlesAt(b) && a < b)
  {
    OrderTakesTurns(sched, n, i, j);
    PromptReads(sched, Inputs(n), 0, 0, i);
    PromptReads(sched, Inputs(n), 0, 0, j);
  }
}
