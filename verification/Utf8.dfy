/** Byte strings that hold UTF-8: a string's characters are its bytes. */
module Utf8 {

  /** utf8.RuneStart: the byte is not a continuation byte. */
  predicate RuneStart(c: char) {
    c < 128 as char || c >= 192 as char
  }

  function Boundary(s: string, n: nat): (k: nat)
    requires n < |s|
    ensures k <= n
  {
    if n > 0 && !RuneStart(s[n]) then Boundary(s, n - 1) else n
  }

  function Truncated(s: string, max: nat): string {
    if |s| <= max then s else s[..Boundary(s, max)]
  }

  /** A cut at k splits no rune. */
  predicate CutsCleanly(s: string, k: nat) {
    k <= |s| && (k == 0 || k == |s| || RuneStart(s[k]))
  }

  /** truncateUTF8. */
  method TruncateUtf8(s: string, maxBytes: nat) returns (r: string)
    ensures r == Truncated(s, maxBytes)
  {
    if |s| <= maxBytes {
      return s;
    }
    var n := maxBytes;
    while n > 0 && !RuneStart(s[n])
      invariant 0 <= n <= maxBytes && Boundary(s, n) == Boundary(s, maxBytes)
    {
      n := n - 1;
    }
    r := s[..n];
  }

  lemma {:induction false} BoundaryIsLast(s: string, n: nat, k: nat)
    requires n < |s|
    ensures CutsCleanly(s, Boundary(s, n))
    ensures Boundary(s, n) < k <= n ==> !CutsCleanly(s, k)
  {
    if n > 0 && !RuneStart(s[n]) {
      BoundaryIsLast(s, n - 1, k);
    }
  }

  /** The result is the longest prefix within the bound that splits no rune. */
  lemma TruncatedIsLongest(s: string, max: nat, k: nat)
    ensures var r := Truncated(s, max);
            r <= s && |r| <= max && CutsCleanly(s, |r|) && (k <= max && CutsCleanly(s, k) ==> k <= |r|)
  {
    if |s| > max {
      BoundaryIsLast(s, max, k);
    }
  }
}
