/** The bytes of a text: UTF-8 as in section 3 of RFC 3629, and that it loses nothing. */
module Utf8 {
  import opened Text

  function EncodeChar(c: char): (e: Bytes)
    ensures e != []
  {
    var n := c as int;
    if n < 0x80 then [n as byte]
    else if n < 0x800 then [(0xC0 + n / 64) as byte, (0x80 + n % 64) as byte]
    else if n < 0x1_0000 then
      [(0xE0 + n / 64 / 64) as byte, (0x80 + n / 64 % 64) as byte, (0x80 + n % 64) as byte]
    else
      [(0xF0 + n / 64 / 64 / 64) as byte, (0x80 + n / 64 / 64 % 64) as byte,
       (0x80 + n / 64 % 64) as byte, (0x80 + n % 64) as byte]
  }

  function Encode(s: string): Bytes {
    if s == "" then [] else EncodeChar(s[0]) + Encode(s[1..])
  }

  /** The table of RFC 3629: the lead byte's range gives the length, every later byte lies in
      0x80..0xBF, and the bits after the markers are the code point's, most significant first. */
  predicate IsCodeOf(e: Bytes, c: char) {
    var n := c as int;
    match |e|
    case 1 => n < 0x80 && e[0] as int == n
    case 2 => 0x80 <= n < 0x800 && Marked(e[0], 0xC0, 32) && Marked(e[1], 0x80, 64)
              && n == 64 * Bits(e[0], 0xC0) + Bits(e[1], 0x80)
    case 3 => 0x800 <= n < 0x1_0000 && Marked(e[0], 0xE0, 16) && Marked(e[1], 0x80, 64) && Marked(e[2], 0x80, 64)
              && n == 4096 * Bits(e[0], 0xE0) + 64 * Bits(e[1], 0x80) + Bits(e[2], 0x80)
    case 4 => 0x1_0000 <= n && Marked(e[0], 0xF0, 8)
              && Marked(e[1], 0x80, 64) && Marked(e[2], 0x80, 64) && Marked(e[3], 0x80, 64)
              && n == 26_2144 * Bits(e[0], 0xF0) + 4096 * Bits(e[1], 0x80) + 64 * Bits(e[2], 0x80) + Bits(e[3], 0x80)
    case _ => false
  }

  predicate Marked(b: byte, marker: int, size: int) {
    marker <= b as int < marker + size
  }

  function Bits(b: byte, marker: int): int {
    b as int - marker
  }

  ghost predicate IsCodeOfText(bs: Bytes, s: string)
    decreases |s|
  {
    if s == "" then bs == [] else exists k: nat :: StartsWithCode(bs, s, k) && IsCodeOfText(bs[k..], s[1..])
  }

  predicate StartsWithCode(bs: Bytes, s: string, k: nat)
    requires s != ""
  {
    k <= |bs| && IsCodeOf(bs[..k], s[0])
  }

  lemma EncodeCharIsCode(c: char)
    ensures IsCodeOf(EncodeChar(c), c)
  {
  }

  /** The encoding is the one of the table. */
  lemma {:induction false} EncodeIsCode(s: string)
    ensures IsCodeOfText(Encode(s), s)
    decreases |s|
  {
    if s != "" {
      var e := EncodeChar(s[0]);
      EncodeCharIsCode(s[0]);
      EncodeIsCode(s[1..]);
      assert Encode(s)[..|e|] == e && Encode(s)[|e|..] == Encode(s[1..]);
      assert StartsWithCode(Encode(s), s, |e|);
    }
  }

  /** The lead byte tells how many bytes a character takes, so no code is a prefix of another. */
  lemma CharsAreSelfDelimiting(c: char, d: char, s: Bytes, t: Bytes)
    requires EncodeChar(c) + s == EncodeChar(d) + t
    ensures c == d && s == t
  {
    var e, f := EncodeChar(c), EncodeChar(d);
    var w := e + s;
    assert w[0] == e[0] == f[0];
    assert |e| == |f|;
    assert w[..|e|] == e && w[..|e|] == f;
    assert w[|e|..] == s && w[|e|..] == t;
    SameCodeSameChar(c, d);
  }

  lemma SameQuotient(n: nat, m: nat)
    requires n / 64 == m / 64 && n % 64 == m % 64
    ensures n == m
  {
  }

  lemma SameCodeSameChar(c: char, d: char)
    requires EncodeChar(c) == EncodeChar(d)
    ensures c == d
  {
    var e, f, n, m := EncodeChar(c), EncodeChar(d), c as int, d as int;
    assert e[0] == f[0] && e[|e| - 1] == f[|e| - 1];
    if |e| == 1 {
      assert n == m;
    } else {
      assert n % 64 == m % 64;
      assert n / 64 == m / 64 by {
        if |e| > 2 {
          assert e[|e| - 2] == f[|e| - 2];
          assert n / 64 / 64 == m / 64 / 64 by {
            if |e| > 3 {
              assert e[1] == f[1];
              SameQuotient(n / 64 / 64, m / 64 / 64);
            }
          }
          SameQuotient(n / 64, m / 64);
        }
      }
      SameQuotient(n, m);
    }
  }

  lemma {:induction false} EncodeIsInjective(a: string, b: string)
    requires Encode(a) == Encode(b)
    ensures a == b
    decreases |a|
  {
    if a != "" && b != "" {
      CharsAreSelfDelimiting(a[0], b[0], Encode(a[1..]), Encode(b[1..]));
      EncodeIsInjective(a[1..], b[1..]);
      assert a == [a[0]] + a[1..] && b == [b[0]] + b[1..];
    }
  }
}
