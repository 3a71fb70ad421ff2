/** The JSON text of a byte string, as encoding/json writes it without HTML escapes. */
module JsonText {
  import opened Utf8

  function HexDigit(n: nat): char
    requires n < 16
  {
    if n < 10 then (n + '0' as int) as char else (n - 10 + 'a' as int) as char
  }

  function EscapedByte(c: char): string {
    if c == '\n' then "\\n" else if c == '\r' then "\\r" else if c == '\t' then "\\t"
    else if c == 8 as char then "\\b" else if c == 12 as char then "\\f"
    else if c == '\"' then "\\\"" else if c == '\\' then "\\\\"
    else if c < 32 as char then "\\u00" + [HexDigit(c as nat / 16), HexDigit(c as nat % 16)]
    else [c]
  }

  predicate Between(s: string, i: nat, lo: int, hi: int) {
    i < |s| && lo <= s[i] as int <= hi
  }

  predicate Continues(s: string, i: nat) {
    Between(s, i, 0x80, 0xBF)
  }

  /** utf8.DecodeRune: the length of the rune s begins with, 0 when it begins with none. */
  function RuneLength(s: string): (n: nat)
    requires s != ""
    ensures n <= |s| && n <= 4
    ensures forall i :: 0 < i < n ==> !RuneStart(s[i])
  {
    var b := s[0] as int;
    if b < 0x80 then 1
    else if 0xC2 <= b <= 0xDF then (if Continues(s, 1) then 2 else 0)
    else if 0xE0 <= b <= 0xEF then
      var second := Between(s, 1, if b == 0xE0 then 0xA0 else 0x80, if b == 0xED then 0x9F else 0xBF);
      if second && Continues(s, 2) then 3 else 0
    else if 0xF0 <= b <= 0xF4 then
      var second := Between(s, 1, if b == 0xF0 then 0x90 else 0x80, if b == 0xF4 then 0x8F else 0xBF);
      if second && Continues(s, 2) && Continues(s, 3) then 4 else 0
    else 0
  }

  function Width(s: string): (n: nat)
    requires s != ""
    ensures 0 < n <= |s|
  {
    if RuneLength(s) == 0 then 1 else RuneLength(s)
  }

  /** The first rune's text: a line or paragraph separator is escaped, a byte that begins no rune is replaced. */
  function Head(s: string): string
    requires s != ""
  {
    var n := RuneLength(s);
    if n == 0 then "\\ufffd"
    else if n == 1 then EscapedByte(s[0])
    else if n == 3 && s[0] as int == 0xE2 && s[1] as int == 0x80 && s[2] as int == 0xA8 then "\\u2028"
    else if n == 3 && s[0] as int == 0xE2 && s[1] as int == 0x80 && s[2] as int == 0xA9 then "\\u2029"
    else s[..n]
  }

  function Escaped(s: string): string {
    if s == "" then "" else Head(s) + Escaped(s[Width(s)..])
  }

  function Quoted(s: string): string {
    "\"" + Escaped(s) + "\""
  }

  predicate ValidUtf8(s: string) {
    s == "" || (RuneLength(s) > 0 && ValidUtf8(s[RuneLength(s)..]))
  }

  // ----- sizes -----

  /** A byte takes one to six characters. */
  lemma {:induction false} EscapedSize(s: string)
    ensures |s| <= |Escaped(s)| <= 6 * |s|
    decreases |s|
  {
    if s != "" {
      EscapedSize(s[Width(s)..]);
    }
  }

  lemma HeadOfPrefix(a: string, b: string)
    requires a != "" && (b == "" || RuneStart(b[0]))
    ensures Width(a + b) == Width(a) && Head(a + b) == Head(a)
  {
    var s := a + b;
    assert forall i: nat :: i < |a| ==> s[i] == a[i];
    assert b != "" ==> s[|a|] == b[0];
    assert RuneLength(s) == RuneLength(a);
    assert s[..RuneLength(a)] == a[..RuneLength(a)];
  }

  /** A cut that splits no rune splits the text. */
  lemma {:induction false} EscapedSplits(a: string, b: string)
    requires b == "" || RuneStart(b[0])
    ensures Escaped(a + b) == Escaped(a) + Escaped(b)
    decreases |a|
  {
    if a == "" {
      assert a + b == b;
    } else {
      HeadOfPrefix(a, b);
      var n := Width(a);
      assert (a + b)[n..] == a[n..] + b;
      EscapedSplits(a[n..], b);
    }
  }

  lemma EscapedCut(s: string, k: nat)
    requires CutsCleanly(s, k)
    ensures Escaped(s) == Escaped(s[..k]) + Escaped(s[k..])
  {
    assert s == s[..k] + s[k..];
    if k > 0 {
      EscapedSplits(s[..k], s[k..]);
    }
  }

  // ----- the first rune -----

  /** Where the first cut after the start splits no rune. */
  function FirstCut(s: string): (k: nat)
    requires s != ""
    ensures 0 < k <= |s| && CutsCleanly(s, k)
    ensures forall i :: 0 < i < k ==> !RuneStart(s[i])
  {
    CutFrom(s, 1)
  }

  function CutFrom(s: string, n: nat): (k: nat)
    requires 0 < n <= |s|
    ensures n <= k <= |s| && CutsCleanly(s, k)
    ensures forall i :: n <= i < k ==> !RuneStart(s[i])
    decreases |s| - n
  {
    if n == |s| || RuneStart(s[n]) then n else CutFrom(s, n + 1)
  }

  lemma FirstCutIs(s: string, k: nat)
    requires s != "" && 0 < k <= |s| && CutsCleanly(s, k) && forall i :: 0 < i < k ==> !RuneStart(s[i])
    ensures FirstCut(s) == k
  {
  }

  /** The cheapest text of what comes before the first cut at c: one rune, then bytes that begin none. */
  function Cheapest(c: nat): int {
    if c <= 4 then c else 6 * c - 20
  }

  lemma {:induction false} StrayBytes(s: string)
    requires forall i :: 0 <= i < |s| ==> !RuneStart(s[i])
    ensures |Escaped(s)| == 6 * |s|
    decreases |s|
  {
    if s != "" {
      assert !RuneStart(s[0]);
      StrayBytes(s[1..]);
    }
  }

  lemma FirstCutCosts(s: string)
    requires s != ""
    ensures |Escaped(s[..FirstCut(s)])| >= Cheapest(FirstCut(s))
  {
    var c := FirstCut(s);
    var head := s[..c];
    assert s == head + s[c..];
    HeadOfPrefix(head, s[c..]);
    StrayBytes(head[Width(head)..]);
  }

  lemma {:induction false} ValidCutsEarly(s: string)
    requires s != "" && ValidUtf8(s)
    ensures FirstCut(s) == RuneLength(s) <= 4
  {
    var n := RuneLength(s);
    if n < |s| {
      assert RuneLength(s[n..]) > 0;
      assert RuneStart(s[n]);
    }
  }
}
