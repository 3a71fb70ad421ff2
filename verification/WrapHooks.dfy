/**
  Plugins' wrap hooks around one body, whatever the hooks do: skip the body, call it again, call it from another
  goroutine, recover its panic, or panic themselves before or after.

  A hook is the tree of its actions; the continuation of a call receives the call's reply, so a hook that does not
  recover a panic raises it again. `fuel` bounds how many actions a hook takes; a hook that never ends has no reply.
  What a hook wraps is a function from the trail so far to its reply and the trail it leaves, so running it twice
  shows in the trail.
 */
module WrapHooks {

  datatype Option<+T> = None | Some(value: T)

  datatype Reply = Returned(outcome: int) | Raised(panic: int)

  /** How often the body has run, and whether some hook ended while a call it made elsewhere was still running. */
  datatype Trail = Trail(runs: nat, left: bool)

  type Wrapped = Trail -> Option<(Reply, Trail)>

  /** Spawn calls the wrapped function on another goroutine; Land is where that call returns. */
  datatype Hook =
    | Return(outcome: int)
    | Panic(value: int)
    | Call(then_: Reply -> Hook)
    | Spawn(rest: Hook)
    | Land(rest: Hook)

  /** errWrapBodyUnfinished, told apart from every outcome of a body by the caller. */
  const UNFINISHED := Returned(-1)

  /** guardedFn's fields: never entered; entered, with the reply still to come; done with a reply. */
  datatype Guard = Fresh | Running(coming: Reply) | Finished(reply: Reply)

  /** guardedFn.call: the wrapped function runs on the first call only. */
  function CallGuarded(g: Guard, inner: Wrapped, at: Trail): Option<(Reply, Guard, Trail)> {
    match g
    case Fresh => (match inner(at)
      case None => None
      case Some((r, t)) => Some((r, Finished(r), t)))
    case Running(_) => Some((UNFINISHED, g, at))
    case Finished(r) => Some((r, g, at))
  }

  /** A call on another goroutine: its own reply goes nowhere, but a first call occupies the guard until it lands. */
  function Spawned(g: Guard, inner: Wrapped, at: Trail): Option<(Guard, Trail)> {
    match CallGuarded(g, inner, at)
    case None => None
    case Some((r, after, t)) => Some((if g.Fresh? then Running(r) else after, t))
  }

  function Landed(g: Guard): Guard {
    if g.Running? then Finished(g.coming) else g
  }

  /** The hook's own end, the guard and the trail it leaves. */
  function RunHook(h: Hook, g: Guard, inner: Wrapped, at: Trail, fuel: nat): Option<(Reply, Guard, Trail)>
    decreases fuel
  {
    if fuel == 0 then None
    else match h
      case Return(o) => Some((Returned(o), g, at))
      case Panic(v) => Some((Raised(v), g, at))
      case Call(k) => (match CallGuarded(g, inner, at)
        case None => None
        case Some((r, after, t)) => RunHook(k(r), after, inner, t, fuel - 1))
      case Spawn(rest) => (match Spawned(g, inner, at)
        case None => None
        case Some((after, t)) => RunHook(rest, after, inner, t, fuel - 1))
      case Land(rest) => RunHook(rest, Landed(g), inner, at, fuel - 1)
  }

  function Ended(g: Guard, t: Trail): Trail {
    t.(left := t.left || g.Running?)
  }

  /** invokeWrapSafely. */
  function Invoke(h: Hook, inner: Wrapped, at: Trail, fuel: nat): Option<(Reply, Trail)> {
    match RunHook(h, Fresh, inner, at, fuel)
    case None => None
    case Some((Returned(o), g, t)) =>
      Some((if g.Finished? && g.reply.Raised? then g.reply else Returned(o), Ended(g, t)))
    case Some((Raised(_), g, t)) =>
      (match CallGuarded(g, inner, t)
       case None => None
       case Some((r, after, u)) => Some((r, Ended(after, u))))
  }

  /** The body: its n-th run replies body(n). */
  function RunBody(body: nat -> Reply, at: Trail): Option<(Reply, Trail)> {
    Some((body(at.runs), at.(runs := at.runs + 1)))
  }

  /** wrapChain: hooks[0] is outermost. */
  function Chain(hooks: seq<Hook>, body: nat -> Reply, at: Trail, fuel: nat): Option<(Reply, Trail)>
    decreases |hooks|
  {
    if hooks == [] then RunBody(body, at)
    else Invoke(hooks[0], (t: Trail) => Chain(hooks[1..], body, t, fuel), at, fuel)
  }

  function Inner(hooks: seq<Hook>, body: nat -> Reply, fuel: nat): Wrapped
    requires hooks != []
  {
    (t: Trail) => Chain(hooks[1..], body, t, fuel)
  }

  // ----- one hook -----

  /** What a guard says after calls that began when the trail was `at`: the wrapped function ran once, or not at all. */
  ghost predicate Guards(g: Guard, inner: Wrapped, at: Trail, now: Trail) {
    match g
    case Fresh => now == at
    case Running(r) => inner(at) == Some((r, now))
    case Finished(r) => inner(at) == Some((r, now))
  }

  lemma {:induction false} HookIsGuarded(h: Hook, g: Guard, inner: Wrapped, at: Trail, now: Trail, fuel: nat)
    requires Guards(g, inner, at, now) && RunHook(h, g, inner, now, fuel).Some?
    ensures var (_, after, t) := RunHook(h, g, inner, now, fuel).value; Guards(after, inner, at, t)
    decreases fuel
  {
    match h
    case Return(_) =>
    case Panic(_) =>
    case Call(k) =>
      var (r, after, t) := CallGuarded(g, inner, now).value;
      HookIsGuarded(k(r), after, inner, at, t, fuel - 1);
    case Spawn(rest) =>
      var (after, t) := Spawned(g, inner, now).value;
      HookIsGuarded(rest, after, inner, at, t, fuel - 1);
    case Land(rest) => HookIsGuarded(rest, Landed(g), inner, at, now, fuel - 1);
  }

  /** The wrapped function ran exactly once, to this reply, or not at all. */
  ghost predicate RanOnce(inner: Wrapped, at: Trail, end: Trail, r: Reply) {
    inner(at).Some? && inner(at).value.0 == r && end.runs == inner(at).value.1.runs &&
    (end.left <== inner(at).value.1.left)
  }

  /** However a hook ends, what it wraps ran at most once; its panic comes out, and a panic that comes out is its. */
  lemma InvokeRunsOnce(h: Hook, inner: Wrapped, at: Trail, fuel: nat)
    requires Invoke(h, inner, at, fuel).Some?
    ensures var (r, end) := Invoke(h, inner, at, fuel).value;
            (end == at && r.Returned?) ||
            (exists reply :: RanOnce(inner, at, end, reply) && (r.Raised? ==> r == reply) &&
              (reply.Raised? && !end.left ==> r == reply) &&
              (reply.Raised? && r == reply ==> end.left == inner(at).value.1.left))
  {
    var (own, g, t) := RunHook(h, Fresh, inner, at, fuel).value;
    HookIsGuarded(h, Fresh, inner, at, at, fuel);
    var (r, end) := Invoke(h, inner, at, fuel).value;
    if g.Running? {
      assert RanOnce(inner, at, end, g.coming);
    } else if g.Finished? {
      assert RanOnce(inner, at, end, g.reply);
    } else if own.Raised? {
      assert RanOnce(inner, at, end, r);
    }
  }

  /** A hook's own panic never comes out: the caller gets what the wrapped function did, or does now, or is told that
      it has not ended yet. */
  lemma HookPanicYieldsInner(h: Hook, inner: Wrapped, at: Trail, fuel: nat)
    requires RunHook(h, Fresh, inner, at, fuel).Some? && RunHook(h, Fresh, inner, at, fuel).value.0.Raised?
    requires Invoke(h, inner, at, fuel).Some?
    ensures var g := RunHook(h, Fresh, inner, at, fuel).value.1; var (r, end) := Invoke(h, inner, at, fuel).value;
            inner(at).Some? && end.runs == inner(at).value.1.runs &&
            (if g.Running? then r == UNFINISHED && end.left
             else r == inner(at).value.0 && end.left == inner(at).value.1.left)
  {
    HookIsGuarded(h, Fresh, inner, at, at, fuel);
  }

  // ----- the chain -----

  /** Whatever the hooks do, the body runs at most once. */
  lemma {:induction false} BodyRunsAtMostOnce(hooks: seq<Hook>, body: nat -> Reply, at: Trail, fuel: nat)
    requires Chain(hooks, body, at, fuel).Some?
    ensures var (_, end) := Chain(hooks, body, at, fuel).value;
            at.runs <= end.runs <= at.runs + 1 && (at.left ==> end.left)
    decreases |hooks|
  {
    if hooks != [] {
      InvokeRunsOnce(hooks[0], Inner(hooks, body, fuel), at, fuel);
      if Chain(hooks[1..], body, at, fuel).Some? {
        BodyRunsAtMostOnce(hooks[1..], body, at, fuel);
      }
    }
  }

  /** The chain panics only with the body's own panic, from its one run. */
  lemma {:induction false} OnlyBodyPanics(hooks: seq<Hook>, body: nat -> Reply, at: Trail, fuel: nat)
    requires Chain(hooks, body, at, fuel).Some? && Chain(hooks, body, at, fuel).value.0.Raised?
    ensures var (r, end) := Chain(hooks, body, at, fuel).value; r == body(at.runs) && end.runs == at.runs + 1
    decreases |hooks|
  {
    if hooks != [] {
      InvokeRunsOnce(hooks[0], Inner(hooks, body, fuel), at, fuel);
      OnlyBodyPanics(hooks[1..], body, at, fuel);
    }
  }

  /** A body that ran and panicked makes the chain panic with the same value exactly when no hook, in this run, ended
      before its own call of what it wraps had. */
  lemma {:induction false} BodyPanicReachesCaller(hooks: seq<Hook>, body: nat -> Reply, at: Trail, fuel: nat)
    requires Chain(hooks, body, at, fuel).Some? && body(at.runs).Raised?
    ensures var (r, end) := Chain(hooks, body, at, fuel).value;
            end.runs > at.runs ==> (!end.left ==> r == body(at.runs)) && (r == body(at.runs) ==> end.left == at.left)
    decreases |hooks|
  {
    if hooks != [] {
      InvokeRunsOnce(hooks[0], Inner(hooks, body, fuel), at, fuel);
      if Chain(hooks[1..], body, at, fuel).Some? {
        BodyPanicReachesCaller(hooks[1..], body, at, fuel);
      }
    }
  }

  /** Hooks that all panic before they call leave the body's own reply, run exactly once. */
  lemma {:induction false} PanickingHooksAreSkipped(hooks: seq<Hook>, body: nat -> Reply, at: Trail, fuel: nat)
    requires fuel > 0 && forall i :: 0 <= i < |hooks| ==> hooks[i].Panic?
    ensures Chain(hooks, body, at, fuel) == Some((body(at.runs), at.(runs := at.runs + 1)))
    decreases |hooks|
  {
    if hooks != [] {
      PanickingHooksAreSkipped(hooks[1..], body, at, fuel);
    }
  }

  // ----- hooks that lose a panic -----

  /** What a hook knows of a body that panics: nothing yet, that it runs elsewhere, or its panic. */
  datatype Phase = Before | Meanwhile | Afterwards

  /** The hook, told of a body that panics with v, ends while its own call still runs. */
  predicate Leaves(h: Hook, phase: Phase, v: int, fuel: nat)
    decreases fuel
  {
    fuel > 0 &&
    match h
    case Return(_) => phase.Meanwhile?
    case Panic(_) => phase.Meanwhile?
    case Call(k) =>
      if phase.Meanwhile? then Leaves(k(UNFINISHED), phase, v, fuel - 1)
      else Leaves(k(Raised(v)), Afterwards, v, fuel - 1)
    case Spawn(rest) => Leaves(rest, if phase.Before? then Meanwhile else phase, v, fuel - 1)
    case Land(rest) => Leaves(rest, if phase.Meanwhile? then Afterwards else phase, v, fuel - 1)
  }

  /** No continuation of the hook calls from another goroutine. */
  ghost predicate NeverSpawns(h: Hook, fuel: nat)
    decreases fuel
  {
    fuel > 0 ==>
      match h
      case Return(_) => true
      case Panic(_) => true
      case Call(k) => forall r :: NeverSpawns(k(r), fuel - 1)
      case Spawn(_) => false
      case Land(rest) => NeverSpawns(rest, fuel - 1)
  }

  lemma {:induction false} UnspawnedNeverLeaves(h: Hook, phase: Phase, v: int, fuel: nat)
    requires NeverSpawns(h, fuel) && !phase.Meanwhile?
    ensures !Leaves(h, phase, v, fuel)
    decreases fuel
  {
    if fuel > 0 {
      match h
      case Return(_) =>
      case Panic(_) =>
      case Call(k) => UnspawnedNeverLeaves(k(Raised(v)), Afterwards, v, fuel - 1);
      case Spawn(_) =>
      case Land(rest) => UnspawnedNeverLeaves(rest, phase, v, fuel - 1);
    }
  }

  /** The guard is where the phase says, over a function that panics with v. */
  ghost predicate Knows(phase: Phase, g: Guard, v: int) {
    match phase
    case Before => g.Fresh?
    case Meanwhile => g == Running(Raised(v))
    case Afterwards => g == Finished(Raised(v))
  }

  lemma {:induction false} HookLeavesIff(h: Hook, g: Guard, phase: Phase, v: int, inner: Wrapped, at: Trail, now: Trail,
                                         fuel: nat)
    requires Knows(phase, g, v) && Guards(g, inner, at, now) && inner(at).Some? && inner(at).value.0 == Raised(v)
    ensures var r := RunHook(h, g, inner, now, fuel); (r.Some? && r.value.1.Running?) <==> Leaves(h, phase, v, fuel)
    decreases fuel
  {
    if fuel > 0 {
      match h
      case Return(_) =>
      case Panic(_) =>
      case Call(k) =>
        var (r, after, t) := CallGuarded(g, inner, now).value;
        HookLeavesIff(k(r), after, if phase.Meanwhile? then phase else Afterwards, v, inner, at, t, fuel - 1);
      case Spawn(rest) =>
        var (after, t) := Spawned(g, inner, now).value;
        HookLeavesIff(rest, after, if phase.Before? then Meanwhile else phase, v, inner, at, t, fuel - 1);
      case Land(rest) =>
        HookLeavesIff(rest, Landed(g), if phase.Meanwhile? then Afterwards else phase, v, inner, at, now, fuel - 1);
    }
  }

  ghost predicate NoneLeaves(hooks: seq<Hook>, v: int, fuel: nat) {
    forall i :: 0 <= i < |hooks| ==> !Leaves(hooks[i], Before, v, fuel)
  }

  /** Whatever else the hooks do, a body that ran and panicked makes the chain panic exactly when none of the hooks,
      told of such a body, leaves its call running. */
  lemma {:induction false} PanicReachesIff(hooks: seq<Hook>, body: nat -> Reply, at: Trail, v: int, fuel: nat)
    requires Chain(hooks, body, at, fuel).Some? && body(at.runs) == Raised(v)
    ensures var (r, end) := Chain(hooks, body, at, fuel).value;
            end.runs > at.runs ==> (r == Raised(v) <==> NoneLeaves(hooks, v, fuel))
    decreases |hooks|
  {
    if hooks != [] {
      var inner := Inner(hooks, body, fuel);
      InvokeRunsOnce(hooks[0], inner, at, fuel);
      HookIsGuarded(hooks[0], Fresh, inner, at, at, fuel);
      if inner(at).Some? {
        PanicReachesIff(hooks[1..], body, at, v, fuel);
        assert NoneLeaves(hooks, v, fuel) <==> !Leaves(hooks[0], Before, v, fuel) && NoneLeaves(hooks[1..], v, fuel);
        if inner(at).value.0 == Raised(v) {
          HookLeavesIff(hooks[0], Fresh, Before, v, inner, at, at, fuel);
        }
      }
    }
  }

  /** If no hook calls from another goroutine, a body's panic always reaches the caller. */
  lemma UnspawnedAlwaysReaches(hooks: seq<Hook>, body: nat -> Reply, at: Trail, fuel: nat)
    requires Chain(hooks, body, at, fuel).Some? && body(at.runs).Raised?
    requires forall i :: 0 <= i < |hooks| ==> NeverSpawns(hooks[i], fuel)
    ensures var (r, end) := Chain(hooks, body, at, fuel).value; end.runs > at.runs ==> r == body(at.runs)
  {
    var v := body(at.runs).panic;
    forall i | 0 <= i < |hooks| ensures !Leaves(hooks[i], Before, v, fuel) {
      UnspawnedNeverLeaves(hooks[i], Before, v, fuel);
    }
    PanicReachesIff(hooks, body, at, v, fuel);
  }

  /** The chain runs the body and does not pass its panic on. */
  ghost predicate LosesPanic(hooks: seq<Hook>, body: nat -> Reply, at: Trail, fuel: nat) {
    var end := Chain(hooks, body, at, fuel);
    body(at.runs).Raised? && end.Some? && end.value.1.runs > at.runs && end.value.0 != body(at.runs)
  }

  /** A hook loses some body's panic exactly when, told of a body that panics, it can leave its own call running. */
  lemma HookLosesPanicIff(h: Hook, v: int, fuel: nat)
    ensures (exists body: nat -> Reply, at: Trail :: body(at.runs) == Raised(v) && LosesPanic([h], body, at, fuel)) <==>
            Leaves(h, Before, v, fuel)
  {
    var panicking, start := (n: nat) => Raised(v), Trail(0, false);
    HookLeavesAlone(h, v, panicking, start, fuel);
    forall body: nat -> Reply, at: Trail | body(at.runs) == Raised(v) && LosesPanic([h], body, at, fuel)
      ensures Leaves(h, Before, v, fuel)
    {
      HookLeavesAlone(h, v, body, at, fuel);
    }
    if Leaves(h, Before, v, fuel) {
      assert panicking(start.runs) == Raised(v) && LosesPanic([h], panicking, start, fuel);
    }
  }

  lemma HookLeavesAlone(h: Hook, v: int, body: nat -> Reply, at: Trail, fuel: nat)
    requires body(at.runs) == Raised(v)
    ensures LosesPanic([h], body, at, fuel) <==> Leaves(h, Before, v, fuel)
  {
    var inner := Inner([h], body, fuel);
    assert inner(at) == RunBody(body, at);
    HookLeavesIff(h, Fresh, Before, v, inner, at, at, fuel);
    if RunHook(h, Fresh, inner, at, fuel).Some? {
      HookIsGuarded(h, Fresh, inner, at, at, fuel);
    }
  }

  /** Such a hook: it calls on another goroutine and returns, and so does the chain, over a body that panicked. */
  lemma SpawnedPanicIsLost(body: nat -> Reply, at: Trail)
    requires body(at.runs).Raised?
    ensures Chain([Spawn(Return(0))], body, at, 2) == Some((Returned(0), Trail(at.runs + 1, true)))
  {
    var hooks := [Spawn(Return(0))];
    var inner := Inner(hooks, body, 2);
    assert inner(at) == RunBody(body, at);
    assert RunHook(Return(0), Running(body(at.runs)), inner, at.(runs := at.runs + 1), 1).Some?;
  }

  // ----- hooks that only look on -----

  /** The hook calls what it wraps once, on its own goroutine, and returns what it got; a panic it raises again. */
  function Observer(): Hook {
    Call((r: Reply) => match r case Returned(o) => Return(o) case Raised(v) => Panic(v))
  }

  /** A hook that does not call what it wraps decides the outcome alone: nothing runs. */
  lemma SkippingHookStands(o: int, inner: Wrapped, at: Trail, fuel: nat)
    requires fuel > 0
    ensures Invoke(Return(o), inner, at, fuel) == Some((Returned(o), at))
  {
  }

  /** A hook that calls once over a body that returned decides the outcome, whatever the body's. */
  lemma LastWordIsTheHooks(k: Reply -> Hook, o: int, b: int, inner: Wrapped, at: Trail, after: Trail, fuel: nat)
    requires fuel > 1 && inner(at) == Some((Returned(b), after)) && k(Returned(b)) == Return(o)
    ensures Invoke(Call(k), inner, at, fuel) == Some((Returned(o), after))
  {
    assert RunHook(Return(o), Finished(Returned(b)), inner, after, fuel - 1) ==
           Some((Returned(o), Finished(Returned(b)), after));
  }

  /** A stack of hooks that only look on changes nothing: the chain is the body, run once, outcome or panic. */
  lemma {:induction false} ObserversChangeNothing(hooks: seq<Hook>, body: nat -> Reply, at: Trail, fuel: nat)
    requires fuel > 1 && forall i :: 0 <= i < |hooks| ==> hooks[i] == Observer()
    ensures Chain(hooks, body, at, fuel) == Some((body(at.runs), at.(runs := at.runs + 1)))
    decreases |hooks|
  {
    if hooks != [] {
      ObserversChangeNothing(hooks[1..], body, at, fuel);
      var inner, b, after := Inner(hooks, body, fuel), body(at.runs), at.(runs := at.runs + 1);
      assert inner(at) == Some((b, after));
      var last := Observer().then_(b);
      assert RunHook(last, Finished(b), inner, after, fuel - 1) == Some((b, Finished(b), after));
    }
  }

  // ----- a call on another goroutine -----

  function AgainOnceLanded(first: Reply): Hook {
    Land(Call((second: Reply) => if first == UNFINISHED && second != UNFINISHED then Return(1) else Return(0)))
  }

  /** A hook may be told that the body has not ended and, once it has, get the recorded outcome. */
  lemma UnfinishedThenRecorded(body: nat -> Reply, at: Trail)
    requires body(at.runs).Returned? && body(at.runs) != UNFINISHED
    ensures Chain([Spawn(Call(AgainOnceLanded))], body, at, 5) == Some((Returned(1), at.(runs := at.runs + 1)))
  {
    var hooks := [Spawn(Call(AgainOnceLanded))];
    var inner := Inner(hooks, body, 5);
    assert inner(at) == RunBody(body, at);
    var b, t := body(at.runs), at.(runs := at.runs + 1);
    var k := AgainOnceLanded(UNFINISHED);
    assert RunHook(k.rest.then_(b), Finished(b), inner, t, 1) == Some((Returned(1), Finished(b), t));
    assert RunHook(k.rest, Finished(b), inner, t, 2) == Some((Returned(1), Finished(b), t));
    assert RunHook(k, Running(b), inner, t, 3) == Some((Returned(1), Finished(b), t));
    assert RunHook(Call(AgainOnceLanded), Running(b), inner, t, 4) == Some((Returned(1), Finished(b), t));
    assert RunHook(hooks[0], Fresh, inner, at, 5) == Some((Returned(1), Finished(b), t));
  }

  // ----- the object -----

  /** The wrapped body, counting its runs. */
  class Body {
    const replies: nat -> Reply
    var runs: nat

    constructor (f: nat -> Reply)
      ensures replies == f && runs == 0
    {
      replies, runs := f, 0;
    }

    method Run() returns (r: Reply)
      modifies this
      ensures runs == old(runs) + 1 && r == replies(old(runs))
    {
      r := replies(runs);
      runs := runs + 1;
    }
  }

  /** guardedFn around the body; each method is one critical section, or the run of the body between two of them. */
  class GuardedFn {
    const fn: Body
    var entered: bool
    var done: bool
    var result: int
    var panicked: bool
    var panicVal: int
    ghost var coming: Reply

    ghost predicate Valid()
      reads this
    {
      (done ==> entered) && (panicked ==> done)
    }

    ghost function View(): Guard
      reads this
    {
      if !entered then Fresh
      else if !done then Running(coming)
      else if panicked then Finished(Raised(panicVal))
      else Finished(Returned(result))
    }

    constructor (body: Body)
      ensures Valid() && View() == Fresh && fn == body
    {
      fn := body;
      entered, done, panicked, result, panicVal := false, false, false, 0, 0;
    }

    /** The first half of a first call: the body runs until Finish. */
    method Enter() returns (r: Reply)
      requires Valid() && !entered
      modifies this, fn
      ensures Valid() && View() == Running(r) && r == fn.replies(old(fn.runs)) && fn.runs == old(fn.runs) + 1
    {
      entered := true;
      r := fn.Run();
      coming := r;
    }

    method Finish(inner: Reply)
      requires Valid() && View() == Running(inner)
      modifies this
      ensures Valid() && View() == Landed(old(View())) == Finished(inner)
    {
      match inner {
        case Returned(o) =>
          result := o;
        case Raised(v) =>
          panicked := true;
          panicVal := v;
      }
      done := true;
    }

    /** call: runs the body on the first call only. */
    method Invoke(ghost left: bool) returns (r: Reply)
      requires Valid()
      modifies this, fn
      ensures Valid()
      ensures CallGuarded(old(View()), (t: Trail) => RunBody(fn.replies, t), Trail(old(fn.runs), left)) ==
              Some((r, View(), Trail(fn.runs, left)))
    {
      if entered {
        if !done {
          r := UNFINISHED;
        } else if panicked {
          r := Raised(panicVal);
        } else {
          r := Returned(result);
        }
        return;
      }
      r := Enter();
      Finish(r);
    }

    /** rethrowBodyPanic, after a hook that returned o. */
    method Rethrow(o: int) returns (r: Reply)
      requires Valid()
      ensures r == if View().Finished? && View().reply.Raised? then View().reply else Returned(o)
    {
      r := if panicked then Raised(panicVal) else Returned(o);
    }
  }

  /** wrapChain: from the innermost hook outwards. */
  method WrapChain(hooks: seq<Hook>, body: nat -> Reply, fuel: nat) returns (next: Wrapped)
    ensures forall at :: next(at) == Chain(hooks, body, at, fuel)
  {
    var i := |hooks|;
    next := (t: Trail) => RunBody(body, t);
    while i > 0
      invariant 0 <= i <= |hooks| && forall at :: next(at) == Chain(hooks[i..], body, at, fuel)
    {
      i := i - 1;
      assert hooks[i..][1..] == hooks[i + 1..];
      var innerNext, wrapFn := next, hooks[i];
      next := (t: Trail) => Invoke(wrapFn, innerNext, t, fuel);
      forall at ensures next(at) == Chain(hooks[i..], body, at, fuel) {
        SameInner(wrapFn, innerNext, Inner(hooks[i..], body, fuel), at, fuel);
      }
    }
    assert hooks[0..] == hooks;
  }

  /** A hook sees what it wraps only through the replies and trails of its calls. */
  lemma SameInner(h: Hook, f: Wrapped, g: Wrapped, at: Trail, fuel: nat)
    requires forall t :: f(t) == g(t)
    ensures Invoke(h, f, at, fuel) == Invoke(h, g, at, fuel)
  {
    SameRun(h, Fresh, f, g, at, fuel);
  }

  lemma {:induction false} SameRun(h: Hook, guard: Guard, f: Wrapped, g: Wrapped, at: Trail, fuel: nat)
    requires forall t :: f(t) == g(t)
    ensures RunHook(h, guard, f, at, fuel) == RunHook(h, guard, g, at, fuel)
    decreases fuel
  {
    if fuel > 0 {
      match h
      case Return(_) =>
      case Panic(_) =>
      case Call(k) =>
        var called := CallGuarded(guard, f, at);
        if called.Some? {
          SameRun(k(called.value.0), called.value.1, f, g, called.value.2, fuel - 1);
        }
      case Spawn(rest) =>
        var spawned := Spawned(guard, f, at);
        if spawned.Some? {
          SameRun(rest, spawned.value.0, f, g, spawned.value.1, fuel - 1);
        }
      case Land(rest) => SameRun(rest, Landed(guard), f, g, at, fuel - 1);
    }
  }
}
