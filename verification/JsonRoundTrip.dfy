/** Reading the JSON text of a byte string back: runes as RFC 3629 encodes them, escapes as RFC 8259 reads them. */
module JsonRoundTrip {
  import opened JsonText
  import opened Utf8

  datatype Option<+T> = None | Some(value: T)

  // ----- code points -----

  /** A Unicode scalar value: a code point that is no surrogate. */
  predicate Scalar(c: nat) {
    c <= 0x10FFFF && !(0xD800 <= c <= 0xDFFF)
  }

  function Byte(n: nat): char
    requires n < 256
  {
    n as char
  }

  /** Section 3 of RFC 3629. */
  function Encoded(c: nat): (s: string)
    requires c <= 0x10FFFF
    ensures 0 < |s| <= 4
  {
    if c < 0x80 then [Byte(c)]
    else if c < 0x800 then [Byte(0xC0 + c / 64), Byte(0x80 + c % 64)]
    else if c < 0x10000 then [Byte(0xE0 + c / 4096), Byte(0x80 + c / 64 % 64), Byte(0x80 + c % 64)]
    else [Byte(0xF0 + c / 262144), Byte(0x80 + c / 4096 % 64), Byte(0x80 + c / 64 % 64), Byte(0x80 + c % 64)]
  }

  /** The code point of the rune s begins with. */
  function CodePoint(s: string): nat
    requires s != "" && RuneLength(s) > 0
  {
    var n, b := RuneLength(s), s[0] as int;
    if n == 1 then b
    else if n == 2 then (b - 0xC0) * 64 + (s[1] as int - 0x80)
    else if n == 3 then (b - 0xE0) * 4096 + (s[1] as int - 0x80) * 64 + (s[2] as int - 0x80)
    else (b - 0xF0) * 262144 + (s[1] as int - 0x80) * 4096 + (s[2] as int - 0x80) * 64 + (s[3] as int - 0x80)
  }

  lemma Digits64(a: nat, x: nat)
    requires x < 64
    ensures (a * 64 + x) / 64 == a && (a * 64 + x) % 64 == x
  {
  }

  lemma Digits4096(a: nat, x: nat, y: nat)
    requires x < 64 && y < 64
    ensures var c := a * 4096 + x * 64 + y; c / 4096 == a && c / 64 % 64 == x && c % 64 == y && c / 64 == a * 64 + x
  {
    Digits64(a * 64 + x, y);
    Digits64(a, x);
  }

  lemma TwoBytes(s: string)
    requires s != "" && RuneLength(s) == 2
    ensures Scalar(CodePoint(s)) && Encoded(CodePoint(s)) == s[..2]
  {
    Digits64(s[0] as int - 0xC0, s[1] as int - 0x80);
  }

  lemma ThreeBytes(s: string)
    requires s != "" && RuneLength(s) == 3
    ensures Scalar(CodePoint(s)) && Encoded(CodePoint(s)) == s[..3]
  {
    var a, x, y := s[0] as int - 0xE0, s[1] as int - 0x80, s[2] as int - 0x80;
    Digits4096(a, x, y);
    var c := CodePoint(s);
    assert c == a * 4096 + x * 64 + y && 0x800 <= c < 0x10000;
    assert Encoded(c) == [Byte(0xE0 + a), Byte(0x80 + x), Byte(0x80 + y)] == s[..3];
  }

  lemma FourBytes(s: string)
    requires s != "" && RuneLength(s) == 4
    ensures Scalar(CodePoint(s)) && Encoded(CodePoint(s)) == s[..4]
  {
    var a, x, y, z := s[0] as int - 0xF0, s[1] as int - 0x80, s[2] as int - 0x80, s[3] as int - 0x80;
    Digits4096(a * 64 + x, y, z);
    Digits64(a, x);
    var c := CodePoint(s);
    assert c == (a * 64 + x) * 4096 + y * 64 + z && 0x10000 <= c <= 0x10FFFF;
    assert c / 262144 == a;
    assert Encoded(c) == [Byte(0xF0 + a), Byte(0x80 + x), Byte(0x80 + y), Byte(0x80 + z)] == s[..4];
  }

  lemma CodePointEncodes(s: string)
    requires s != "" && RuneLength(s) > 0
    ensures Scalar(CodePoint(s)) && Encoded(CodePoint(s)) == s[..RuneLength(s)]
  {
    if RuneLength(s) == 2 {
      TwoBytes(s);
    } else if RuneLength(s) == 3 {
      ThreeBytes(s);
    } else if RuneLength(s) == 4 {
      FourBytes(s);
    }
  }

  lemma EncodedIsRune(c: nat, rest: string)
    requires Scalar(c)
    ensures RuneLength(Encoded(c) + rest) == |Encoded(c)|
  {
    var s := Encoded(c) + rest;
    assert forall i :: 0 <= i < |Encoded(c)| ==> s[i] == Encoded(c)[i];
    if 0x800 <= c < 0x10000 {
      assert c / 4096 == 0 ==> c / 64 % 64 >= 0x20;
      assert c / 4096 == 13 ==> c / 64 % 64 < 0x20;
    } else if c >= 0x10000 {
      assert c / 262144 == 0 ==> c / 4096 % 64 >= 0x10;
      assert c / 262144 == 4 ==> c / 4096 % 64 < 0x10;
    }
  }

  /** A text begins with a rune of n bytes exactly when it begins with a scalar value's encoding in n bytes. */
  lemma RuneIffEncoded(s: string, n: nat)
    requires s != "" && n > 0
    ensures RuneLength(s) == n <==> exists c: nat :: Scalar(c) && |Encoded(c)| == n && Encoded(c) <= s
  {
    if RuneLength(s) == n {
      CodePointEncodes(s);
    }
    if c: nat :| Scalar(c) && |Encoded(c)| == n && Encoded(c) <= s {
      EncodedIsRune(c, s[n..]);
      assert s == Encoded(c) + s[n..];
    }
  }

  // ----- reading JSON -----

  function HexValue(c: char): Option<nat> {
    if '0' <= c <= '9' then Some(c as nat - '0' as nat)
    else if 'a' <= c <= 'f' then Some(c as nat - 'a' as nat + 10)
    else if 'A' <= c <= 'F' then Some(c as nat - 'A' as nat + 10)
    else None
  }

  function CodeUnit(t: string): Option<nat>
    requires |t| == 4
  {
    var a, b, c, d := HexValue(t[0]), HexValue(t[1]), HexValue(t[2]), HexValue(t[3]);
    if a.None? || b.None? || c.None? || d.None? then None
    else Some(a.value * 4096 + b.value * 256 + c.value * 16 + d.value)
  }

  /** What the first character or escape of a JSON string stands for, and how long it is; section 7 of RFC 8259. */
  function First(t: string): (r: Option<(string, nat)>)
    requires t != ""
    ensures r.Some? ==> 0 < r.value.1 <= |t|
  {
    if t[0] == '\"' || t[0] < 32 as char then None
    else if t[0] != '\\' then Some((t[..1], 1))
    else if |t| < 2 then None
    else match t[1]
      case '\"' => Some(("\"", 2))
      case '\\' => Some(("\\", 2))
      case '/' => Some(("/", 2))
      case 'b' => Some(([8 as char], 2))
      case 'f' => Some(([12 as char], 2))
      case 'n' => Some(("\n", 2))
      case 'r' => Some(("\r", 2))
      case 't' => Some(("\t", 2))
      case 'u' =>
        if |t| < 6 || CodeUnit(t[2..6]).None? || !Scalar(CodeUnit(t[2..6]).value) then None
        else Some((Encoded(CodeUnit(t[2..6]).value), 6))
      case _ => None
  }

  function Prepended(a: string, o: Option<string>): Option<string> {
    if o.None? then None else Some(a + o.value)
  }

  /** The byte string that the inside of a JSON string stands for; None when it is not one. */
  function Unescaped(t: string): Option<string> {
    if t == "" then Some("")
    else
      var r := First(t);
      if r.None? then None else Prepended(r.value.0, Unescaped(t[r.value.1..]))
  }

  /** The text with every byte that begins no rune replaced by U+FFFD. */
  function Cleaned(s: string): string {
    if s == "" then ""
    else (if RuneLength(s) == 0 then Encoded(0xFFFD) else s[..RuneLength(s)]) + Cleaned(s[Width(s)..])
  }

  lemma {:induction false} ValidIsClean(s: string)
    requires ValidUtf8(s)
    ensures Cleaned(s) == s
  {
    if s != "" {
      ValidIsClean(s[RuneLength(s)..]);
      assert s == s[..RuneLength(s)] + s[RuneLength(s)..];
    }
  }

  lemma ReadsToken(token: string, text: string, rest: string)
    requires token != "" && First(token + rest) == Some((text, |token|))
    ensures Unescaped(token + rest) == Prepended(text, Unescaped(rest))
  {
    assert (token + rest)[|token|..] == rest;
  }

  lemma ReadsOne(b: string, rest: string)
    requires |b| == 1 && b[0] >= 128 as char
    ensures Unescaped(b + rest) == Prepended(b, Unescaped(rest))
  {
    assert (b + rest)[0] == b[0] && (b + rest)[..1] == b;
    ReadsToken(b, b, rest);
  }

  lemma Prepending(a: string, b: string, o: Option<string>)
    ensures Prepended(a, Prepended(b, o)) == Prepended(a + b, o) && Prepended("", o) == o
  {
    assert o.Some? ==> a + (b + o.value) == (a + b) + o.value && "" + o.value == o.value;
  }

  lemma SplitsFirst(b: string, rest: string)
    requires b != ""
    ensures b + rest == b[..1] + (b[1..] + rest) && b[..1] + b[1..] == b
  {
  }

  /** Bytes from 128 on stand for themselves. */
  lemma {:induction false} ReadsVerbatim(b: string, rest: string)
    requires forall i :: 0 <= i < |b| ==> b[i] >= 128 as char
    ensures Unescaped(b + rest) == Prepended(b, Unescaped(rest))
    decreases |b|
  {
    if b == "" {
      assert b + rest == rest;
      Prepending("", "", Unescaped(rest));
    } else {
      var head, tail := b[..1], b[1..];
      ReadsVerbatim(tail, rest);
      ReadsOne(head, tail + rest);
      Prepending(head, tail, Unescaped(rest));
      SplitsFirst(b, rest);
      assert Unescaped(b + rest) == Unescaped(head + (tail + rest));
    }
  }

  lemma ReadsEscape(token: string, rest: string)
    requires |token| == 6 && token[..2] == "\\u" && CodeUnit(token[2..]).Some? && Scalar(CodeUnit(token[2..]).value)
    ensures Unescaped(token + rest) == Prepended(Encoded(CodeUnit(token[2..]).value), Unescaped(rest))
  {
    var t := token + rest;
    assert t[0] == token[..2][0] && t[1] == token[..2][1] && t[2..6] == token[2..];
    ReadsToken(token, Encoded(CodeUnit(token[2..]).value), rest);
  }

  lemma ReadsByte(c: char, rest: string)
    requires c < 128 as char
    ensures Unescaped(EscapedByte(c) + rest) == Prepended([c], Unescaped(rest))
  {
    var token := EscapedByte(c);
    if |token| == 6 {
      var n := c as nat;
      assert token[2..] == "00" + [HexDigit(n / 16), HexDigit(n % 16)];
      assert CodeUnit(token[2..]) == Some(n);
      ReadsEscape(token, rest);
    } else {
      assert (token + rest)[0] == token[0] && (|token| == 2 ==> (token + rest)[1] == token[1]);
      assert |token| == 1 ==> (token + rest)[..1] == token;
      ReadsToken(token, [c], rest);
    }
  }

  lemma ReadsHead(s: string, rest: string)
    requires s != ""
    ensures Unescaped(Head(s) + rest) ==
            Prepended(if RuneLength(s) == 0 then Encoded(0xFFFD) else s[..RuneLength(s)], Unescaped(rest))
  {
    var n := RuneLength(s);
    if n == 1 {
      assert s[..1] == [s[0]];
      ReadsByte(s[0], rest);
    } else if n == 0 {
      assert Head(s)[2..] == "fffd" && CodeUnit("fffd") == Some(0xFFFD);
      ReadsEscape(Head(s), rest);
    } else if Head(s) != s[..n] {
      CodePointEncodes(s);
      var c := CodePoint(s);
      assert c == 0x2028 || c == 0x2029;
      assert CodeUnit(Head(s)[2..]) == Some(c);
      ReadsEscape(Head(s), rest);
    } else {
      ReadsVerbatim(s[..n], rest);
    }
  }

  /** The JSON text of any byte string reads back as the string, each byte that begins no rune as U+FFFD. */
  lemma {:induction false} EscapedReadsBack(s: string)
    ensures Unescaped(Escaped(s)) == Some(Cleaned(s))
    ensures ValidUtf8(s) ==> Unescaped(Escaped(s)) == Some(s)
    decreases |s|
  {
    if s != "" {
      EscapedReadsBack(s[Width(s)..]);
      ReadsHead(s, Escaped(s[Width(s)..]));
    }
    if ValidUtf8(s) {
      ValidIsClean(s);
    }
  }
}
