/** The grammar of RFC 8259, said apart from the printer and the parser: which text is a text
    of which value. White space around tokens, which neither encoder writes, is left out. */
module Grammar {
  import opened Text
  import opened Json

  // ---- strings (section 7) ----

  /** The two-character escapes. */
  predicate IsShortEscape(x: char, c: char) {
    || (x == '\"' && c == '\"') || (x == '\\' && c == '\\') || (x == '/' && c == '/')
    || (x == 'b' && c == '\U{0008}') || (x == 'f' && c == '\U{000C}') || (x == 'n' && c == '\U{000A}')
    || (x == 'r' && c == '\U{000D}') || (x == 't' && c == '\U{0009}')
  }

  /** A code escape: the hexadecimal number of a UTF-16 code unit, in digits of either case. */
  predicate IsCodeEscape(e: string, unit: nat) {
    && |e| == 6 && e[0] == '\\' && e[1] == 'u' && IsHex(e[2]) && IsHex(e[3]) && IsHex(e[4]) && IsHex(e[5])
    && unit == 4096 * HexValue(e[2]) + 256 * HexValue(e[3]) + 16 * HexValue(e[4]) + HexValue(e[5])
  }

  predicate IsSurrogatePair(high: nat, low: nat, n: nat) {
    && 0xD800 <= high < 0xDC00 && 0xDC00 <= low < 0xE000
    && n == 0x1_0000 + 0x400 * (high - 0xD800) + (low - 0xDC00)
  }

  /** e stands for the character c inside a string. */
  ghost predicate IsChar(e: string, c: char) {
    || (e == [c] && c >= ' ' && c != '\"' && c != '\\')
    || (|e| == 2 && e[0] == '\\' && IsShortEscape(e[1], c))
    || IsCodeEscape(e, c as int)
    || (|e| == 12 && exists high: nat, low: nat ::
          IsCodeEscape(e[..6], high) && IsCodeEscape(e[6..], low) && IsSurrogatePair(high, low, c as int))
  }

  ghost predicate IsChars(t: string, s: string)
    decreases |s|
  {
    if s == "" then t == "" else exists k: nat :: StartsWithChar(t, s, k) && IsChars(t[k..], s[1..])
  }

  ghost predicate StartsWithChar(t: string, s: string, k: nat)
    requires s != ""
  {
    k <= |t| && IsChar(t[..k], s[0])
  }

  ghost predicate IsString(t: string, s: string) {
    |t| >= 2 && t[0] == '\"' && t[|t| - 1] == '\"' && IsChars(t[1..|t| - 1], s)
  }

  // ---- numbers (section 6) ----

  /** Decimal digits without a leading zero, for the integers that occur here. */
  predicate IsNatural(t: string, n: nat) {
    && t != "" && (forall i | 0 <= i < |t| :: IsDigit(t[i])) && (t[0] == '0' ==> |t| == 1)
    && DecimalValue(t) == n
  }

  predicate IsNumber(t: string, i: int) {
    if i < 0 then t != "" && t[0] == '-' && IsNatural(t[1..], -i) else IsNatural(t, i)
  }

  // ---- values (section 3), arrays (section 5) and objects (section 4) ----

  ghost predicate IsText(t: string, v: Json)
    decreases v, 0
  {
    match v
    case Null => t == "null"
    case Bool(b) => (b && t == "true") || (!b && t == "false")
    case Int(i) => IsNumber(t, i)
    case Str(s) => IsString(t, s)
    case Arr(xs) => |t| >= 2 && t[0] == '[' && t[|t| - 1] == ']' && IsElems(t[1..|t| - 1], xs)
    case Obj(ms) => |t| >= 2 && t[0] == '{' && t[|t| - 1] == '}' && IsMembers(t[1..|t| - 1], ms)
  }

  /** Comma-separated values. */
  ghost predicate IsElems(t: string, xs: seq<Json>)
    decreases xs, 1
  {
    if xs == [] then t == ""
    else if |xs| == 1 then IsText(t, xs[0])
    else exists k | 0 <= k < |t| :: IsText(t[..k], xs[0]) && t[k] == ',' && IsElems(t[k + 1..], xs[1..])
  }

  ghost predicate IsMembers(t: string, ms: seq<Member>)
    decreases ms, 2
  {
    if ms == [] then t == ""
    else if |ms| == 1 then IsMember(t, ms[0])
    else exists k | 0 <= k < |t| :: IsMember(t[..k], ms[0]) && t[k] == ',' && IsMembers(t[k + 1..], ms[1..])
  }

  ghost predicate IsMember(t: string, m: Member)
    decreases m, 1
  {
    exists k | 0 <= k < |t| :: IsString(t[..k], m.key) && t[k] == ':' && IsText(t[k + 1..], m.value)
  }

  // ---- the printer writes it ----

  lemma EscapeIsChar(c: char)
    ensures IsChar(EscapeChar(c), c)
  {
    if c < ' ' && EscapeChar(c)[1] == 'u' {
      HexValueIsPlace(c as int / 16);
      HexValueIsPlace(c as int % 16);
    }
  }

  /** The printer's choice among the texts of a character is the shortest one, with lower-case
      digits: nothing is escaped that need not be. */
  lemma EscapeIsShortest(c: char, e: string)
    requires IsChar(e, c)
    ensures |EscapeChar(c)| <= |e|
    ensures |EscapeChar(c)| == |e| == 6 ==> forall i | 2 <= i < 6 :: IsLowerHex(EscapeChar(c)[i])
  {
  }

  lemma {:induction false} EscapedIsChars(s: string)
    ensures IsChars(EscapeText(s), s)
    decreases |s|
  {
    if s != "" {
      var t, e := EscapeText(s), EscapeChar(s[0]);
      EscapeIsChar(s[0]);
      EscapedIsChars(s[1..]);
      assert t[..|e|] == e && t[|e|..] == EscapeText(s[1..]);
      assert StartsWithChar(t, s, |e|);
    }
  }

  lemma QuotedIsString(s: string)
    ensures IsString(Quote(s), s)
  {
    EscapedIsChars(s);
    assert Quote(s)[1..|Quote(s)| - 1] == EscapeText(s);
  }

  lemma {:induction false} DecimalHasNoLeadingZero(n: nat)
    ensures Decimal(n)[0] == '0' ==> n == 0
  {
    if n >= 10 {
      DecimalHasNoLeadingZero(n / 10);
    }
  }

  /** A number has one such text. */
  lemma {:induction false} NaturalIsDecimal(t: string, n: nat)
    requires IsNatural(t, n)
    ensures t == Decimal(n)
    decreases |t|
  {
    var last := |t| - 1;
    assert t == t[..last] + [t[last]];
    if last == 0 {
      assert DecimalValue(t[..0]) == 0;
      assert DigitChar(DigitValue(t[0])) == t[0];
    } else {
      var front := t[..last];
      assert front[0] == t[0];
      DecimalIsPositive(front);
      NaturalIsDecimal(front, DecimalValue(front));
      assert DigitChar(DigitValue(t[last])) == t[last];
    }
  }

  lemma {:induction false} DecimalIsPositive(t: string)
    requires t != "" && (forall i | 0 <= i < |t| :: IsDigit(t[i])) && t[0] != '0'
    ensures DecimalValue(t) > 0
    decreases |t|
  {
    if |t| > 1 {
      DecimalIsPositive(t[..|t| - 1]);
    }
  }

  lemma DecimalIsNatural(n: nat)
    ensures IsNatural(Decimal(n), n)
  {
    DecimalReadsBack(n);
    DecimalHasNoLeadingZero(n);
  }

  lemma NumeralIsNumber(i: int)
    ensures IsNumber(Numeral(i), i)
  {
    DecimalIsNatural(if i < 0 then -i else i);
    if i < 0 {
      assert Numeral(i)[1..] == Decimal(-i);
    }
  }

  /** What the printer writes for a value is a text of that value. */
  lemma {:induction false} PrintIsText(v: Json)
    ensures IsText(Print(v), v)
    decreases v, 0
  {
    match v
    case Null =>
    case Bool(b) =>
    case Int(i) => NumeralIsNumber(i);
    case Str(s) => QuotedIsString(s);
    case Arr(xs) =>
      ElemsAreElems(xs);
      assert Print(v)[1..|Print(v)| - 1] == PrintElems(xs);
    case Obj(ms) =>
      MembersAreMembers(ms);
      assert Print(v)[1..|Print(v)| - 1] == PrintMembers(ms);
  }

  lemma ElemsNext(t: string, xs: seq<Json>, k: nat)
    requires |xs| > 1 && k < |t| && IsText(t[..k], xs[0]) && t[k] == ',' && IsElems(t[k + 1..], xs[1..])
    ensures IsElems(t, xs)
  {
  }

  lemma MembersNext(t: string, ms: seq<Member>, k: nat)
    requires |ms| > 1 && k < |t| && IsMember(t[..k], ms[0]) && t[k] == ',' && IsMembers(t[k + 1..], ms[1..])
    ensures IsMembers(t, ms)
  {
  }

  lemma {:induction false} ElemsAreElems(xs: seq<Json>)
    ensures IsElems(PrintElems(xs), xs)
    decreases xs, 1
  {
    if |xs| == 1 {
      PrintIsText(xs[0]);
    } else if xs != [] {
      var t, k := PrintElems(xs), |Print(xs[0])|;
      PrintIsText(xs[0]);
      ElemsAreElems(xs[1..]);
      assert t[..k] == Print(xs[0]) && t[k] == ',' && t[k + 1..] == PrintElems(xs[1..]);
      ElemsNext(t, xs, k);
    }
  }

  lemma {:induction false} MembersAreMembers(ms: seq<Member>)
    ensures IsMembers(PrintMembers(ms), ms)
    decreases ms, 2
  {
    if |ms| == 1 {
      MemberIsMember(ms[0]);
    } else if ms != [] {
      var t, k := PrintMembers(ms), |PrintMember(ms[0])|;
      MemberIsMember(ms[0]);
      MembersAreMembers(ms[1..]);
      assert t[..k] == PrintMember(ms[0]) && t[k] == ',' && t[k + 1..] == PrintMembers(ms[1..]);
      MembersNext(t, ms, k);
    }
  }

  lemma {:induction false} MemberIsMember(m: Member)
    ensures IsMember(PrintMember(m), m)
    decreases m, 1
  {
    var t, k := PrintMember(m), |Quote(m.key)|;
    QuotedIsString(m.key);
    PrintIsText(m.value);
    assert t[..k] == Quote(m.key) && t[k] == ':' && t[k + 1..] == Print(m.value);
  }
}
