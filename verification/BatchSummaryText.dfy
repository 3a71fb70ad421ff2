/** marshalBatchSummaryRecord: the caller's summary, shortened until the record fits a checkpoint. */
module BatchSummaryText {
  import opened JsonText
  import opened Utf8

  const SIZE_LIMIT := 256 * 1024
  const KEY := ",\"summary\":"

  /** Go's integer division truncates towards zero. */
  function Quotient(a: int, b: nat): int
    requires b > 0
  {
    if a >= 0 then a / b else -((-a) / b)
  }

  /** The record's JSON with the summary as its last field. */
  function WithSummary(base: string, encoded: string): string
    requires base != ""
  {
    base[..|base| - 1] + KEY + encoded + "}"
  }

  function Keep(summary: string, budget: int, encoded: nat): (k: nat)
    requires summary != "" && encoded > 0
    ensures k < |summary|
  {
    var keep := Quotient(|summary| * budget, encoded);
    var shorter := if keep >= |summary| then |summary| - 1 else keep;
    if shorter > 0 then shorter else 0
  }

  /** The part of the summary that is stored. */
  function Fitted(encode: string -> string, summary: string, budget: int): (r: string)
    requires forall s :: encode(s) != ""
    ensures r == "" || |encode(r)| <= budget
    decreases |summary|
  {
    if summary == "" then ""
    else if |encode(summary)| <= budget then summary
    else Fitted(encode, Truncated(summary, Keep(summary, budget, |encode(summary)|)), budget)
  }

  /** A shortened summary is cut on a rune boundary of the original, pass after pass. */
  lemma {:induction false} FittedIsCleanPrefix(encode: string -> string, summary: string, budget: int)
    requires forall s :: encode(s) != ""
    ensures Fitted(encode, summary, budget) <= summary
    ensures CutsCleanly(summary, |Fitted(encode, summary, budget)|)
    decreases |summary|
  {
    if summary != "" && |encode(summary)| > budget {
      var keep := Keep(summary, budget, |encode(summary)|);
      var next := Truncated(summary, keep);
      TruncatedIsLongest(summary, keep, 0);
      FittedIsCleanPrefix(encode, next, budget);
      var r := Fitted(encode, next, budget);
      assert |r| < |next| ==> next[|r|] == summary[|r|];
    }
  }

  /** How many bytes of the summary the next pass keeps. */
  method Shortened(summary: string, budget: int, encoded: nat) returns (keep: int)
    requires summary != "" && encoded > 0
    ensures (if keep > 0 then keep else 0) == Keep(summary, budget, encoded)
  {
    keep := Quotient(|summary| * budget, encoded);
    if keep >= |summary| {
      keep := |summary| - 1;
    }
  }

  /** What is stored, given how much of the summary is. */
  function Stored(encode: string -> string, base: string, kept: string): string
    requires base != ""
  {
    if kept == "" then base else WithSummary(base, encode(kept))
  }

  function Budget(base: string): int {
    SIZE_LIMIT - |base| - |KEY|
  }

  function Marshalled(encode: string -> string, base: string, summary: string): string
    requires base != "" && forall s :: encode(s) != ""
  {
    Stored(encode, base, Fitted(encode, summary, Budget(base)))
  }

  /**
    The record fits the limit whenever it does without its summary, and the summary it holds is a clean prefix of
    the caller's, the whole of it when that fits.
   */
  method MarshalSummaryRecord(encode: string -> string, base: string, summary: string) returns (out: string)
    requires base != "" && forall s :: encode(s) != ""
    ensures out == Marshalled(encode, base, summary)
    ensures |base| <= SIZE_LIMIT ==> |out| <= SIZE_LIMIT
    ensures summary != "" && |WithSummary(base, encode(summary))| <= SIZE_LIMIT ==>
              out == WithSummary(base, encode(summary))
  {
    if summary == "" {
      return base;
    }
    var budget := Budget(base);
    var left := summary;
    while left != ""
      invariant Fitted(encode, left, budget) == Fitted(encode, summary, budget)
      invariant left != summary ==> |encode(summary)| > budget
      decreases |left|
    {
      var encoded := encode(left);
      if |encoded| <= budget {
        out := WithSummary(base, encoded);
        return;
      }
      var keep := Shortened(left, budget, |encoded|);
      left := TruncateUtf8(left, if keep > 0 then keep else 0);
    }
    out := base;
  }

  // ----- when a part of the summary is kept -----

  /** A part of the summary that is not empty and splits no rune fits. */
  ghost predicate SomePartFits(summary: string, budget: int) {
    exists k :: 0 < k <= |summary| && CutsCleanly(summary, k) && |Quoted(summary[..k])| <= budget
  }

  /** If any part fits, so does the shortest. */
  lemma FirstRuneFits(s: string, budget: int)
    requires s != ""
    ensures SomePartFits(s, budget) <==> |Quoted(s[..FirstCut(s)])| <= budget
  {
    var c := FirstCut(s);
    forall k | 0 < k <= |s| && CutsCleanly(s, k) ensures |Escaped(s[..c])| <= |Escaped(s[..k])| {
      assert c <= k;
      assert s[..k][..c] == s[..c];
      assert c < k ==> s[..k][c] == s[c];
      EscapedCut(s[..k], c);
    }
  }

  lemma TimesGrows(a: int, b: int, m: nat)
    requires a <= b
    ensures a * m <= b * m
  {
    assert (b - a) * m >= 0;
  }

  lemma QuotientBounds(a: nat, e: nat, c: nat)
    requires e > 0
    ensures Quotient(a, e) >= c <==> a >= c * e
  {
    var q := a / e;
    assert q * e <= a < q * e + e;
    if q >= c {
      TimesGrows(c, q, e);
    } else {
      TimesGrows(q + 1, c, e);
      assert (q + 1) * e == q * e + e;
    }
  }

  /** The first pass keeps c bytes or more: n bytes take e characters, the first c of them x. */
  lemma PassReaches(n: nat, c: nat, x: nat, e: nat, budget: int)
    requires 0 < c < n && e <= 2 + x + 6 * (n - c) && budget >= 2 + x && budget >= 6 * c
    ensures n * budget >= c * e
  {
    TimesGrows(2 + x, budget, c);
    TimesGrows(6 * c, budget, n - c);
    TimesGrows(e, 2 + x + 6 * (n - c), c);
    assert n * budget == budget * c + budget * (n - c);
    assert (2 + x + 6 * (n - c)) * c == (2 + x) * c + (6 * c) * (n - c);
  }

  lemma PassOvershoots(n: nat, c: nat, x: nat, e: nat, budget: int)
    requires 0 < c < n && e == 2 + x + 6 * (n - c) && 0 <= budget < 6 * c && n > c * (6 * c - 2 - x)
    ensures n * budget < c * e
  {
    TimesGrows(budget, 6 * c - 1, n);
    assert (6 * c - 1) * n == 6 * c * n - n;
    assert c * e == c * (2 + x - 6 * c) + 6 * c * n;
    assert c * (2 + x - 6 * c) == -(c * (6 * c - 2 - x));
  }

  lemma RestCosts(s: string)
    requires s != ""
    ensures |Quoted(s)| <= 2 + |Escaped(s[..FirstCut(s)])| + 6 * (|s| - FirstCut(s))
    ensures FirstCut(s) == |s| ==> s[..FirstCut(s)] == s
  {
    EscapedCut(s, FirstCut(s));
    EscapedSize(s[FirstCut(s)..]);
  }

  lemma PassKeepsFirstRune(s: string, budget: int, e: nat)
    requires s != "" && |Quoted(s[..FirstCut(s)])| <= budget < e == |Quoted(s)| && budget >= 6 * FirstCut(s)
    ensures FirstCut(s) <= Keep(s, budget, e)
  {
    var c := FirstCut(s);
    RestCosts(s);
    PassReaches(|s|, c, |Escaped(s[..c])|, e, budget);
    KeepReaches(s, budget, e, c);
  }

  lemma KeepReaches(s: string, budget: int, e: nat, c: nat)
    requires c < |s| && budget >= 0 && e > 0 && |s| * budget >= c * e
    ensures c <= Keep(s, budget, e)
  {
    QuotientBounds(|s| * budget, e, c);
  }

  lemma KeepStaysBelow(s: string, budget: int, e: nat, c: nat)
    requires 0 < c < |s| && budget >= 0 && e > 0 && |s| * budget < c * e
    ensures Keep(s, budget, e) < c
  {
    QuotientBounds(|s| * budget, e, c);
  }

  /** With room for six characters a byte of the first rune, what is kept is never empty. */
  lemma {:induction false} FirstRuneIsKept(s: string, budget: int)
    requires s != "" && |Quoted(s[..FirstCut(s)])| <= budget && budget >= 6 * FirstCut(s)
    ensures Fitted(Quoted, s, budget) != ""
    decreases |s|
  {
    if |Quoted(s)| > budget {
      var c, keep := FirstCut(s), Keep(s, budget, |Quoted(s)|);
      PassKeepsFirstRune(s, budget, |Quoted(s)|);
      var next := Truncated(s, keep);
      TruncatedIsLongest(s, keep, c);
      assert next == s[..|next|] && next[..c] == s[..c];
      FirstCutIs(next, c);
      FirstRuneIsKept(next, budget);
    }
  }

  // ----- summaries that are dropped -----

  const CONTROL: char := 1 as char

  function Controls(n: nat): string {
    seq(n, _ => CONTROL)
  }

  lemma {:induction false} ControlsCost(n: nat)
    ensures |Escaped(Controls(n))| == 6 * n
    decreases n
  {
    if n > 0 {
      var s := Controls(n);
      assert s[1..] == Controls(n - 1);
      assert Head(s) == EscapedByte(CONTROL);
      ControlsCost(n - 1);
    }
  }

  lemma {:induction false} ControlsAreValid(n: nat)
    ensures ValidUtf8(Controls(n))
  {
    if n > 0 {
      assert Controls(n)[1..] == Controls(n - 1);
      ControlsAreValid(n - 1);
    }
  }

  /** The cheapest start whose first cut is at c. */
  function Start(c: nat): string
    requires c > 0
  {
    if c == 1 then ['a']
    else if c == 2 then [0xC2 as char, 0x80 as char]
    else if c == 3 then [0xE1 as char, 0x80 as char, 0x80 as char]
    else [0xF1 as char, 0x80 as char, 0x80 as char, 0x80 as char] + seq(c - 4, _ => 0x80 as char)
  }

  lemma StartCosts(c: nat)
    requires c > 0
    ensures |Start(c)| == c && |Escaped(Start(c))| == Cheapest(c)
    ensures forall i :: 0 < i < c ==> !RuneStart(Start(c)[i])
    ensures c <= 4 ==> ValidUtf8(Start(c))
  {
    var s := Start(c);
    var n := if c <= 4 then c else 4;
    assert RuneLength(s) == n && Head(s) == s[..n];
    StrayBytes(s[n..]);
    assert c <= 4 ==> s[n..] == "";
  }

  /** A start and enough control bytes after it for the first pass to overshoot it. */
  function Overshot(c: nat): string
    requires c > 0
  {
    Start(c) + Controls(if c <= 4 then 5 * c * c + 1 else 18 * c + 1)
  }

  lemma OvershotCosts(c: nat)
    requires c > 0
    ensures var s := Overshot(c);
            FirstCut(s) == c < |s| && s[..c] == Start(c) && |Quoted(s)| == 2 + Cheapest(c) + 6 * (|s| - c)
    ensures c <= 4 ==> ValidUtf8(Overshot(c))
  {
    var s := Overshot(c);
    var tail := s[c..];
    StartCosts(c);
    assert s[..c] == Start(c) && tail == Controls(|tail|) && s == Start(c) + tail;
    FirstCutIs(s, c);
    EscapedSplits(Start(c), tail);
    ControlsCost(|tail|);
    if c <= 4 {
      HeadOfPrefix(Start(c), tail);
      assert s[RuneLength(s)..] == tail;
      ControlsAreValid(|tail|);
    }
  }

  lemma LongEnough(c: nat, n: nat)
    requires c > 0 && n == c + (if c <= 4 then 5 * c * c + 1 else 18 * c + 1)
    ensures n > c * (6 * c - 2 - Cheapest(c)) && n > 2 * c
  {
    if c <= 4 {
      assert c * (6 * c - 2 - c) == 5 * c * c - 2 * c;
      assert 5 * c * c >= c by { TimesGrows(1, 5 * c, c); }
    } else {
      assert 6 * c - 2 - Cheapest(c) == 18;
    }
  }

  lemma CutBelowFirst(s: string, keep: nat)
    requires s != "" && keep < FirstCut(s)
    ensures Truncated(s, keep) == ""
  {
    TruncatedIsLongest(s, keep, 0);
    assert forall i :: 0 < i < FirstCut(s) ==> !CutsCleanly(s, i);
  }

  lemma OvershotIsDropped(c: nat, budget: int)
    requires c > 0 && 2 + Cheapest(c) <= budget < 6 * c
    ensures Fitted(Quoted, Overshot(c), budget) == ""
  {
    var s := Overshot(c);
    OvershotCosts(c);
    StartCosts(c);
    var n, e := |s|, |Quoted(s)|;
    LongEnough(c, n);
    PassOvershoots(n, c, Cheapest(c), e, budget);
    KeepStaysBelow(s, budget, e, c);
    CutBelowFirst(s, Keep(s, budget, e));
  }

  // ----- the condition -----

  ghost predicate AlwaysKept(c: nat, budget: int) {
    forall s :: s != "" && FirstCut(s) == c && SomePartFits(s, budget) ==> Fitted(Quoted, s, budget) != ""
  }

  /**
    Among the summaries whose first clean cut is at c, every one with a fitting part keeps a part exactly when the
    budget is at least 6c, or too small for any part of such a summary.
   */
  lemma KeptIffRoomForFirstRune(c: nat, budget: int)
    requires c > 0
    ensures AlwaysKept(c, budget) <==> budget >= 6 * c || budget < 2 + Cheapest(c)
  {
    forall s | s != "" && FirstCut(s) == c && SomePartFits(s, budget)
      ensures budget >= 2 + Cheapest(c) && (budget >= 6 * c ==> Fitted(Quoted, s, budget) != "")
    {
      FirstRuneFits(s, budget);
      FirstCutCosts(s);
      if budget >= 6 * c {
        FirstRuneIsKept(s, budget);
      }
    }
    if 2 + Cheapest(c) <= budget < 6 * c {
      OvershotCosts(c);
      StartCosts(c);
      OvershotIsDropped(c, budget);
      FirstRuneFits(Overshot(c), budget);
    }
  }

  /** A fitting part of a valid summary is lost: nothing of it is stored. */
  ghost predicate Loses(base: string, s: string)
    requires base != ""
  {
    ValidUtf8(s) && SomePartFits(s, Budget(base)) && Marshalled(Quoted, base, s) == base
  }

  /**
    No valid UTF-8 summary loses all its fitting parts exactly when the bare record leaves at least 24 bytes for the
    summary's text, or fewer than the 3 that any text takes.
   */
  lemma NothingLostIffRoom(base: string)
    requires base != ""
    ensures (forall s :: !Loses(base, s)) <==> Budget(base) >= 24 || Budget(base) < 3
  {
    var budget := Budget(base);
    forall s | ValidUtf8(s) && SomePartFits(s, budget)
      ensures budget >= 3 && (budget >= 24 ==> Marshalled(Quoted, base, s) != base)
    {
      ValidCutsEarly(s);
      FirstRuneFits(s, budget);
      FirstCutCosts(s);
      if budget >= 24 {
        FirstRuneIsKept(s, budget);
        assert |Marshalled(Quoted, base, s)| > |base|;
      }
    }
    if 3 <= budget < 24 {
      var c := if budget < 6 then 1 else 4;
      OvershotCosts(c);
      StartCosts(c);
      OvershotIsDropped(c, budget);
      FirstRuneFits(Overshot(c), budget);
      assert Loses(base, Overshot(c));
    }
  }

  /** One letter before a control byte would fit a record of 262130 bytes, yet none of the summary is stored. */
  lemma FittingPrefixMayBeDropped(base: string)
    requires |base| == 262130
    ensures var s := ['a', CONTROL];
            Marshalled(Quoted, base, s) == base &&
            Marshalled(Quoted, base, s[..1]) == WithSummary(base, Quoted(s[..1])) &&
            |Marshalled(Quoted, base, s[..1])| <= SIZE_LIMIT
  {
    var s := ['a', CONTROL];
    assert Budget(base) == 3 && s[1..] == [CONTROL] && s[..1] == ['a'] && s[..1][..0] == "" && s[1..][1..] == "";
    assert Escaped(s[1..]) == EscapedByte(CONTROL) + Escaped("");
    assert Escaped(s[..1]) == ['a'] + Escaped("");
    assert Escaped(s) == ['a'] + Escaped(s[1..]);
    assert |Quoted(s)| == 9 && |Quoted(s[..1])| == 3;
    assert Keep(s, 3, 9) == 0 && Truncated(s, 0) == s[..0] == "";
    assert Fitted(Quoted, s, 3) == Fitted(Quoted, "", 3) == "";
    assert Fitted(Quoted, s[..1], 3) == s[..1];
  }
}
