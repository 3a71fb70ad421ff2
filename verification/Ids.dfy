/**
  Positional operation IDs.

  An ID is the path of positions from the root context. `Render` is its text form, the one the SDK
  mints: "1", "2", ... at the root and "p-1", "p-2", ... in the context whose own ID renders as p.
 */
module Ids {

  /** The positions of the enclosing contexts, outermost first, then the operation's own position. */
  type Id = seq<nat>

  // ----- text form -----

  function Digit(d: nat): char
    requires d < 10
  {
    '0' + d as char
  }

  /** strconv.Itoa for a non-negative number. */
  function Itoa(n: nat): (s: string)
    ensures |s| > 0 && Digits(s)
  {
    if n < 10 then [Digit(n)] else Itoa(n / 10) + [Digit(n % 10)]
  }

  predicate Digits(s: string) {
    forall i :: 0 <= i < |s| ==> '0' <= s[i] <= '9'
  }

  function Atoi(s: string): nat
    requires Digits(s)
  {
    if s == [] then 0 else 10 * Atoi(s[..|s| - 1]) + (s[|s| - 1] as nat - '0' as nat)
  }

  lemma {:induction false} AtoiItoa(n: nat)
    ensures Atoi(Itoa(n)) == n
  {
    if n < 10 {
      assert Itoa(n)[..0] == [];
    } else {
      AtoiItoa(n / 10);
      assert Itoa(n)[..|Itoa(n)| - 1] == Itoa(n / 10);
    }
  }

  /** opIDs.format, folded over the whole path. */
  function Render(id: Id): string {
    if id == [] then "" else Format(Render(id[..|id| - 1]), id[|id| - 1])
  }

  function Format(prefix: string, n: nat): string {
    if prefix == "" then Itoa(n) else prefix + "-" + Itoa(n)
  }

  /** The text before the last '-', or None when there is none. */
  function LastDash(s: string): (i: int)
    ensures -1 <= i < |s|
    ensures i >= 0 ==> s[i] == '-'
    ensures forall j :: i < j < |s| ==> s[j] != '-'
  {
    if s == "" then -1
    else if s[|s| - 1] == '-' then |s| - 1
    else LastDash(s[..|s| - 1])
  }

  lemma LastDashOf(s: string, i: nat)
    requires i < |s| && s[i] == '-'
    requires Digits(s[i + 1..])
    ensures LastDash(s) == i
  {
    assert forall j :: i < j < |s| ==> s[j] == s[i + 1..][j - i - 1];
  }

  lemma {:induction false} NoDash(s: string)
    requires Digits(s)
    ensures LastDash(s) == -1
  {
    if s != "" {
      NoDash(s[..|s| - 1]);
    }
  }

  /** The text before the position's own number, and that number. */
  lemma FormatParts(prefix: string, n: nat)
    ensures var t := Format(prefix, n);
            if prefix == "" then LastDash(t) == -1 && t == Itoa(n)
            else LastDash(t) == |prefix| && t[..|prefix|] == prefix && t[|prefix| + 1..] == Itoa(n)
  {
    if prefix == "" {
      NoDash(Itoa(n));
    } else {
      var t := Format(prefix, n);
      assert t[|prefix| + 1..] == Itoa(n);
      LastDashOf(t, |prefix|);
    }
  }

  lemma FormatInjective(p: string, m: nat, q: string, n: nat)
    requires Format(p, m) == Format(q, n)
    ensures p == q && m == n
  {
    FormatParts(p, m);
    FormatParts(q, n);
    AtoiItoa(m);
    AtoiItoa(n);
  }

  /** Distinct operations have distinct IDs: the text of an ID determines the path. */
  lemma {:induction false} RenderInjective(a: Id, b: Id)
    requires Render(a) == Render(b)
    ensures a == b
    decreases |a|
  {
    if a != [] && b != [] {
      var pa, pb, na, nb := a[..|a| - 1], b[..|b| - 1], a[|a| - 1], b[|b| - 1];
      FormatInjective(Render(pa), na, Render(pb), nb);
      RenderInjective(pa, pb);
      assert a == pa + [na] && b == pb + [nb];
    }
  }

  // ----- the minter -----

  /** opIDs: mints the IDs of one context. */
  class OpIds {
    const prefix: Id
    var counter: nat

    constructor (prefix: Id)
      ensures this.prefix == prefix && counter == 0
    {
      this.prefix := prefix;
      counter := 0;
    }

    function Peek(): Id
      reads this
    {
      prefix + [counter + 1]
    }

    method Next() returns (id: Id)
      modifies this
      ensures id == old(Peek()) && counter == old(counter) + 1
    {
      counter := counter + 1;
      id := prefix + [counter];
    }

    method Advance(n: nat)
      modifies this
      ensures counter == old(counter) + n
    {
      counter := counter + n;
    }

    method Child(entity: Id) returns (ids: OpIds)
      ensures fresh(ids) && ids.prefix == entity && ids.counter == 0
    {
      ids := new OpIds(entity);
    }
  }
}
