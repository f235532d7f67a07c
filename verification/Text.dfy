/** Characters and strings: the code-point order Python sorts dict keys by, decimal
    numerals, and hexadecimal text. */
module Text {

  datatype Option<+T> = None | Some(value: T)

  newtype byte = b: int | 0 <= b < 256

  type Bytes = seq<byte>

  /** Strict lexicographic order by code point. */
  predicate Less(a: string, b: string)
    decreases |a|
  {
    if b == "" then false
    else if a == "" then true
    else a[0] < b[0] || (a[0] == b[0] && Less(a[1..], b[1..]))
  }

  /** At position k, the first where they differ, a has the smaller character. */
  predicate SmallerAt(a: string, b: string, k: nat) {
    k < |a| && k < |b| && a[..k] == b[..k] && a[k] < b[k]
  }

  /** Dictionary order, said apart from Less: a is a proper prefix of b, or has the smaller
      character where they first differ. */
  ghost predicate Precedes(a: string, b: string) {
    a < b || exists k: nat :: SmallerAt(a, b, k)
  }

  lemma {:induction false} LessIsPrecedes(a: string, b: string)
    ensures Less(a, b) <==> Precedes(a, b)
    decreases |a|
  {
    if a != "" && b != "" {
      if a[0] == b[0] {
        LessIsPrecedes(a[1..], b[1..]);
        TailPrecedes(a, b);
      } else if a[0] < b[0] {
        assert SmallerAt(a, b, 0);
      }
    }
  }

  lemma TailPrecedes(a: string, b: string)
    requires a != "" && b != "" && a[0] == b[0]
    ensures Precedes(a[1..], b[1..]) <==> Precedes(a, b)
  {
    assert a == [a[0]] + a[1..] && b == [b[0]] + b[1..];
    if k: nat :| SmallerAt(a[1..], b[1..], k) {
      assert a[..k + 1] == [a[0]] + a[1..][..k] && b[..k + 1] == [b[0]] + b[1..][..k];
      assert SmallerAt(a, b, k + 1);
    }
    if k: nat :| SmallerAt(a, b, k) {
      assert k > 0;
      assert a[1..][..k - 1] == a[..k][1..] && b[1..][..k - 1] == b[..k][1..];
      assert SmallerAt(a[1..], b[1..], k - 1);
    }
    assert a < b <==> a[1..] < b[1..];
  }

  lemma {:induction false} LessIsTransitive(a: string, b: string, c: string)
    requires Less(a, b) && Less(b, c)
    ensures Less(a, c)
    decreases |a|
  {
    if a != "" && a[0] == b[0] && b[0] == c[0] {
      LessIsTransitive(a[1..], b[1..], c[1..]);
    }
  }

  lemma {:induction false} LessIsIrreflexive(a: string)
    ensures !Less(a, a)
    decreases |a|
  {
    if a != "" {
      LessIsIrreflexive(a[1..]);
    }
  }

  lemma {:induction false} LessIsTotal(a: string, b: string)
    ensures Less(a, b) || a == b || Less(b, a)
    decreases |a|
  {
    if a != "" && b != "" && a[0] == b[0] {
      LessIsTotal(a[1..], b[1..]);
      assert a == [a[0]] + a[1..] && b == [b[0]] + b[1..];
    }
  }

  // ---- decimal numerals ----

  predicate IsDigit(c: char) {
    '0' <= c <= '9'
  }

  function DigitChar(n: nat): (c: char)
    requires n < 10
    ensures IsDigit(c)
  {
    '0' + n as char
  }

  function DigitValue(c: char): nat
    requires IsDigit(c)
  {
    c as int - '0' as int
  }

  function Decimal(n: nat): (s: string)
    ensures |s| > 0 && forall i | 0 <= i < |s| :: IsDigit(s[i])
  {
    if n < 10 then [DigitChar(n)] else Decimal(n / 10) + [DigitChar(n % 10)]
  }

  function DecimalValue(s: string): nat
    requires forall i | 0 <= i < |s| :: IsDigit(s[i])
  {
    if s == "" then 0 else DecimalValue(s[..|s| - 1]) * 10 + DigitValue(s[|s| - 1])
  }

  lemma {:induction false} DecimalReadsBack(n: nat)
    ensures DecimalValue(Decimal(n)) == n
  {
    if n >= 10 {
      DecimalReadsBack(n / 10);
      assert Decimal(n)[..|Decimal(n)| - 1] == Decimal(n / 10);
    } else {
      assert Decimal(n)[..0] == "";
    }
  }

  /** Where the run of digits that starts at i ends. */
  function DigitsEnd(s: string, i: nat): (e: nat)
    requires i <= |s|
    ensures i <= e <= |s|
    ensures forall k | i <= k < e :: IsDigit(s[k])
    ensures e < |s| ==> !IsDigit(s[e])
    decreases |s| - i
  {
    if i < |s| && IsDigit(s[i]) then DigitsEnd(s, i + 1) else i
  }

  // ---- occurrences ----

  /** word occurs in s at position i. */
  predicate At(s: string, i: nat, word: string) {
    i + |word| <= |s| && forall k | 0 <= k < |word| :: s[i + k] == word[k]
  }

  lemma AtConcat(s: string, i: nat, a: string, b: string)
    requires At(s, i, a + b)
    ensures At(s, i, a) && At(s, i + |a|, b)
  {
    assert forall k | 0 <= k < |a| :: (a + b)[k] == a[k];
    forall k | 0 <= k < |b| ensures s[i + |a| + k] == b[k] {
      assert (a + b)[|a| + k] == b[k];
    }
  }

  // ---- hexadecimal text ----

  /** A lower-case hexadecimal digit, as hexdigest() and hex() write it. */
  predicate IsLowerHex(c: char) {
    IsDigit(c) || 'a' <= c <= 'f'
  }

  predicate IsLowerHexText(s: string, length: nat) {
    |s| == length && forall i | 0 <= i < |s| :: IsLowerHex(s[i])
  }

  const HEX_DIGITS: string := "0123456789abcdef"

  function HexChar(n: nat): (c: char)
    requires n < 16
    ensures IsLowerHex(c)
  {
    HEX_DIGITS[n]
  }

  predicate IsHex(c: char) {
    IsLowerHex(c) || 'A' <= c <= 'F'
  }

  function HexValue(c: char): (n: nat)
    requires IsHex(c)
    ensures n < 16
  {
    if IsDigit(c) then DigitValue(c)
    else if 'a' <= c then c as int - 'a' as int + 10
    else c as int - 'A' as int + 10
  }

  /** The value of a digit is its place in the list of digits, in either case. */
  lemma HexValueIsPlace(n: nat)
    requires n < 16
    ensures HexValue(HEX_DIGITS[n]) == n && HexValue("0123456789ABCDEF"[n]) == n
  {
  }

  /** White space that `bytes.fromhex` skips between bytes. */
  predicate IsAsciiSpace(c: char) {
    c == ' ' || '\t' <= c <= '\r'
  }

  /** `bytes.fromhex`: pairs of digits of either case, white space allowed between pairs. */
  function FromHex(s: string): Option<Bytes> {
    if s == "" then Some([])
    else if IsAsciiSpace(s[0]) then FromHex(s[1..])
    else if |s| >= 2 && IsHex(s[0]) && IsHex(s[1]) then
      var tail := FromHex(s[2..]);
      if tail.None? then None
      else Some([(16 * HexValue(s[0]) + HexValue(s[1])) as byte] + tail.value)
    else None
  }

  /** `bytes.hex`: for each byte its high digit, then its low one. */
  function ToHex(bs: Bytes): (s: string)
    ensures IsLowerHexText(s, 2 * |bs|)
  {
    if bs == [] then ""
    else [HexChar(bs[0] as int / 16), HexChar(bs[0] as int % 16)] + ToHex(bs[1..])
  }

  /** A pair of digits is one byte, the high digit first. */
  lemma FromHexNext(x: char, y: char, b: byte, rest: string)
    requires IsHex(x) && IsHex(y) && b as int == 16 * HexValue(x) + HexValue(y)
    ensures FromHex([x, y] + rest).Some? <==> FromHex(rest).Some?
    ensures FromHex(rest).Some? ==> FromHex([x, y] + rest) == Some([b] + FromHex(rest).value)
  {
    assert ([x, y] + rest)[2..] == rest;
  }

  lemma ToHexNext(b: byte, bs: Bytes)
    ensures ToHex([b] + bs) == [HexChar(b as int / 16), HexChar(b as int % 16)] + ToHex(bs)
  {
    assert ([b] + bs)[1..] == bs;
  }

  /** `bytes.fromhex` gives back the bytes that `bytes.hex` wrote. */
  lemma {:induction false} HexReadsBack(bs: Bytes)
    ensures FromHex(ToHex(bs)) == Some(bs)
    decreases |bs|
  {
    if bs != [] {
      var b := bs[0] as int;
      HexValueIsPlace(b / 16);
      HexValueIsPlace(b % 16);
      HexReadsBack(bs[1..]);
      FromHexNext(HexChar(b / 16), HexChar(b % 16), bs[0], ToHex(bs[1..]));
      assert bs == [bs[0]] + bs[1..];
    }
  }

  /** And a lower-case text is what `bytes.hex` writes of the bytes it decodes to. */
  lemma {:induction false} LowerHexWritesBack(s: string, n: nat)
    requires IsLowerHexText(s, 2 * n)
    ensures FromHex(s).Some? && |FromHex(s).value| == n && ToHex(FromHex(s).value) == s
    decreases n
  {
    if n > 0 {
      assert IsLowerHex(s[0]) && IsLowerHex(s[1]);
      LowerHexWritesBack(s[2..], n - 1);
      PairWritesBack(s[0], s[1], s[2..]);
      assert s == [s[0], s[1]] + s[2..];
    }
  }

  lemma PairWritesBack(x: char, y: char, rest: string)
    requires IsLowerHex(x) && IsLowerHex(y)
    requires FromHex(rest).Some? && ToHex(FromHex(rest).value) == rest
    ensures var r := FromHex([x, y] + rest);
      r.Some? && |r.value| == 1 + |FromHex(rest).value| && ToHex(r.value) == [x, y] + rest
  {
    var b := PairByte(x, y);
    FromHexNext(x, y, b, rest);
    ToHexNext(b, FromHex(rest).value);
  }

  lemma PairByte(x: char, y: char) returns (b: byte)
    requires IsLowerHex(x) && IsLowerHex(y)
    ensures b as int == 16 * HexValue(x) + HexValue(y)
    ensures HexChar(b as int / 16) == x && HexChar(b as int % 16) == y
  {
    b := (16 * HexValue(x) + HexValue(y)) as byte;
    LowerHexPlace(x);
    LowerHexPlace(y);
  }

  lemma LowerHexPlace(c: char)
    requires IsLowerHex(c)
    ensures HexChar(HexValue(c)) == c
  {
  }
}
