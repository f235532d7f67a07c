/** JSON values whose objects keep insertion order, the compact printer shared by
    json.dumps(separators=(",", ":"), ensure_ascii=False) and JSON.stringify, and a parser
    that inverts it. */
module Json {
  import opened Text

  datatype Member = Member(key: string, value: Json)

  datatype Json =
    | Null
    | Bool(b: bool)
    | Int(i: int)
    | Str(s: string)
    | Arr(elems: seq<Json>)
    | Obj(members: seq<Member>)

  /** The value under a key. */
  function Lookup(ms: seq<Member>, key: string): Option<Json> {
    if ms == [] then None
    else if ms[0].key == key then Some(ms[0].value)
    else Lookup(ms[1..], key)
  }

  // ---- printing ----

  /** The escapes of section 7 of RFC 8259 that both encoders use: the two-character forms
      where they exist, \u00XX for the other control characters, nothing else. */
  function EscapeChar(c: char): (e: string)
    ensures e != ""
  {
    if c == '\"' then "\\\""
    else if c == '\\' then "\\\\"
    else if c == '\n' then "\\n"
    else if c == '\r' then "\\r"
    else if c == '\t' then "\\t"
    else if c == '\U{0008}' then "\\b"
    else if c == '\U{000C}' then "\\f"
    else if c < ' ' then ['\\', 'u', '0', '0', HexChar(c as int / 16), HexChar(c as int % 16)]
    else [c]
  }

  function EscapeText(s: string): string {
    if s == "" then "" else EscapeChar(s[0]) + EscapeText(s[1..])
  }

  function Quote(s: string): string {
    "\"" + EscapeText(s) + "\""
  }

  function Numeral(i: int): string {
    if i < 0 then "-" + Decimal(-i) else Decimal(i)
  }

  function Print(v: Json): string
    decreases v, 0
  {
    match v
    case Null => "null"
    case Bool(b) => if b then "true" else "false"
    case Int(i) => Numeral(i)
    case Str(s) => Quote(s)
    case Arr(xs) => "[" + PrintElems(xs) + "]"
    case Obj(ms) => "{" + PrintMembers(ms) + "}"
  }

  function PrintElems(xs: seq<Json>): string
    decreases xs, 1
  {
    if xs == [] then ""
    else if |xs| == 1 then Print(xs[0])
    else Print(xs[0]) + "," + PrintElems(xs[1..])
  }

  function PrintMembers(ms: seq<Member>): string
    decreases ms, 1
  {
    if ms == [] then ""
    else if |ms| == 1 then PrintMember(ms[0])
    else PrintMember(ms[0]) + "," + PrintMembers(ms[1..])
  }

  function PrintMember(m: Member): string
    decreases m, 1
  {
    Quote(m.key) + ":" + Print(m.value)
  }

  // ---- parsing ----

  /** What was read, and the position after it. */
  datatype Parsed<+T> = Got(value: T, next: nat) | Bad

  /** The parsed text ends beyond i and within the text. */
  predicate Moves<T>(p: Parsed<T>, s: string, i: nat) {
    p.Got? ==> i < p.next <= |s|
  }

  /** One possibly escaped character of a string literal, in the escapes the printer writes;
      the closing quote and a raw control character are no character. */
  function ParseChar(s: string, i: nat): (p: Parsed<char>)
    ensures Moves(p, s, i)
  {
    if i >= |s| || s[i] < ' ' || s[i] == '\"' then Bad
    else if s[i] != '\\' then Got(s[i], i + 1)
    else if i + 1 >= |s| then Bad
    else
      match s[i + 1]
      case '\"' => Got('\"', i + 2)
      case '\\' => Got('\\', i + 2)
      case 'n' => Got('\n', i + 2)
      case 'r' => Got('\r', i + 2)
      case 't' => Got('\t', i + 2)
      case 'b' => Got('\U{0008}', i + 2)
      case 'f' => Got('\U{000C}', i + 2)
      case 'u' => ParseCode(s, i + 2)
      case _ => Bad
  }

  /** The four digits of \u00XX, the only code escape the printer writes. */
  function ParseCode(s: string, i: nat): (p: Parsed<char>)
    ensures Moves(p, s, i)
  {
    if i + 4 <= |s| && s[i] == '0' && s[i + 1] == '0' && IsLowerHex(s[i + 2]) && IsLowerHex(s[i + 3])
    then Got((16 * HexValue(s[i + 2]) + HexValue(s[i + 3])) as char, i + 4)
    else Bad
  }

  /** The rest of a string literal, up to and including its closing quote. */
  function ParseText(s: string, i: nat): (p: Parsed<string>)
    ensures Moves(p, s, i)
    decreases |s| - i
  {
    if i >= |s| then Bad
    else if s[i] == '\"' then Got("", i + 1)
    else
      match ParseChar(s, i)
      case Bad => Bad
      case Got(c, j) =>
        match ParseText(s, j)
        case Bad => Bad
        case Got(t, k) => Got([c] + t, k)
  }

  function ParseNumber(s: string, i: nat): (p: Parsed<Json>)
    requires i < |s|
    ensures Moves(p, s, i)
  {
    var start := if s[i] == '-' then i + 1 else i;
    var end := DigitsEnd(s, start);
    if end == start then Bad
    else
      var n := DecimalValue(s[start..end]);
      Got(Int(if s[i] == '-' then 0 - n else n), end)
  }

  function ParseWord(word: string, v: Json, s: string, i: nat): (p: Parsed<Json>)
    requires word != ""
    ensures Moves(p, s, i)
  {
    if At(s, i, word) then Got(v, i + |word|) else Bad
  }

  function ParseValue(s: string, i: nat): (p: Parsed<Json>)
    ensures Moves(p, s, i)
    decreases |s| - i, 0
  {
    if i >= |s| then Bad
    else
      match s[i]
      case '\"' =>
        (match ParseText(s, i + 1)
         case Bad => Bad
         case Got(t, j) => Got(Str(t), j))
      case '[' =>
        if i + 1 < |s| && s[i + 1] == ']' then Got(Arr([]), i + 2)
        else
          (match ParseElems(s, i + 1)
           case Bad => Bad
           case Got(xs, j) => Got(Arr(xs), j))
      case '{' =>
        if i + 1 < |s| && s[i + 1] == '}' then Got(Obj([]), i + 2)
        else
          (match ParseMembers(s, i + 1)
           case Bad => Bad
           case Got(ms, j) => Got(Obj(ms), j))
      case 'n' => ParseWord("null", Null, s, i)
      case 't' => ParseWord("true", Bool(true), s, i)
      case 'f' => ParseWord("false", Bool(false), s, i)
      case _ => ParseNumber(s, i)
  }

  /** One or more comma-separated values and the closing bracket. */
  function ParseElems(s: string, i: nat): (p: Parsed<seq<Json>>)
    ensures Moves(p, s, i)
    decreases |s| - i, 1
  {
    match ParseValue(s, i)
    case Bad => Bad
    case Got(v, j) =>
      if j < |s| && s[j] == ']' then Got([v], j + 1)
      else if j < |s| && s[j] == ',' then
        (match ParseElems(s, j + 1)
         case Bad => Bad
         case Got(vs, k) => Got([v] + vs, k))
      else Bad
  }

  function ParseMember(s: string, i: nat): (p: Parsed<Member>)
    ensures Moves(p, s, i)
    decreases |s| - i, 1
  {
    if i >= |s| || s[i] != '\"' then Bad
    else
      match ParseText(s, i + 1)
      case Bad => Bad
      case Got(key, j) =>
        if j < |s| && s[j] == ':' then
          (match ParseValue(s, j + 1)
           case Bad => Bad
           case Got(v, k) => Got(Member(key, v), k))
        else Bad
  }

  /** One or more comma-separated members and the closing brace. */
  function ParseMembers(s: string, i: nat): (p: Parsed<seq<Member>>)
    ensures Moves(p, s, i)
    decreases |s| - i, 2
  {
    match ParseMember(s, i)
    case Bad => Bad
    case Got(m, j) =>
      if j < |s| && s[j] == '}' then Got([m], j + 1)
      else if j < |s| && s[j] == ',' then
        (match ParseMembers(s, j + 1)
         case Bad => Bad
         case Got(ms, k) => Got([m] + ms, k))
      else Bad
  }

  /** A whole text is one value and nothing after it. */
  function Parse(s: string): Option<Json> {
    match ParseValue(s, 0)
    case Got(v, n) => if n == |s| then Some(v) else None
    case Bad => None
  }

  // ---- parsing inverts printing ----

  lemma CharReadsBack(c: char, s: string, i: nat)
    requires At(s, i, EscapeChar(c))
    ensures s[i] != '\"'
    ensures ParseChar(s, i) == Got(c, i + |EscapeChar(c)|)
  {
    var e := EscapeChar(c);
    assert s[i + 0] == e[0];
    if |e| >= 2 {
      assert s[i + 1] == e[1];
    }
    if |e| == 6 {
      assert s[i + 2] == e[2] && s[i + 3] == e[3] && s[i + 4] == e[4] && s[i + 5] == e[5];
      assert HexValue(e[4]) == c as int / 16 && HexValue(e[5]) == c as int % 16;
    }
  }

  lemma TextStep(s: string, i: nat, c: char, j: nat, t: string, k: nat)
    requires i < |s| && s[i] != '\"' && ParseChar(s, i) == Got(c, j) && ParseText(s, j) == Got(t, k)
    ensures ParseText(s, i) == Got([c] + t, k)
  {
  }

  lemma Regrouped(a: string, b: string, c: string)
    ensures (a + b) + c == a + (b + c)
  {
  }

  lemma TextSplits(t: string, s: string, i: nat)
    requires t != "" && At(s, i, EscapeText(t) + "\"")
    ensures At(s, i, EscapeChar(t[0])) && At(s, i + |EscapeChar(t[0])|, EscapeText(t[1..]) + "\"")
  {
    Regrouped(EscapeChar(t[0]), EscapeText(t[1..]), "\"");
    AtConcat(s, i, EscapeChar(t[0]), EscapeText(t[1..]) + "\"");
  }

  lemma {:induction false} TextReadsBack(t: string, s: string, i: nat)
    requires At(s, i, EscapeText(t) + "\"")
    ensures ParseText(s, i) == Got(t, i + |EscapeText(t)| + 1)
    decreases |t|
  {
    if t == "" {
      assert s[i + 0] == (EscapeText(t) + "\"")[0];
    } else {
      var j := i + |EscapeChar(t[0])|;
      assert t == [t[0]] + t[1..];
      TextSplits(t, s, i);
      TextReadsBack(t[1..], s, j);
      CharReadsBack(t[0], s, i);
      TextStep(s, i, t[0], j, t[1..], i + |EscapeText(t)| + 1);
    }
  }

  /** What may follow a printed value: nothing, or one of the characters the printer puts there. */
  predicate Delimited(s: string, i: nat) {
    i < |s| ==> s[i] == ',' || s[i] == ']' || s[i] == '}'
  }

  lemma DigitsReadBack(n: nat, s: string, i: nat)
    requires At(s, i, Decimal(n)) && Delimited(s, i + |Decimal(n)|)
    ensures DigitsEnd(s, i) == i + |Decimal(n)|
    ensures DecimalValue(s[i..DigitsEnd(s, i)]) == n
  {
    var ds, e := Decimal(n), DigitsEnd(s, i);
    DecimalReadsBack(n);
    var k := if e < i + |ds| then e - i else 0;
    assert s[i + k] == ds[k];
    assert s[i..i + |ds|] == ds;
  }

  lemma NumberReadsBack(n: int, s: string, i: nat)
    requires At(s, i, Numeral(n)) && Delimited(s, i + |Numeral(n)|)
    ensures ParseNumber(s, i) == Got(Int(n), i + |Numeral(n)|)
    ensures s[i] == '-' || IsDigit(s[i])
  {
    assert s[i + 0] == Numeral(n)[0];
    if n < 0 {
      AtConcat(s, i, "-", Decimal(-n));
      DigitsReadBack(-n, s, i + 1);
    } else {
      DigitsReadBack(n, s, i);
    }
  }

  lemma NameReadsBack(v: Json, s: string, i: nat)
    requires (v.Null? || v.Bool?) && At(s, i, Print(v))
    ensures ParseValue(s, i) == Got(v, i + |Print(v)|)
  {
    assert s[i + 0] == Print(v)[0];
  }

  lemma {:induction false} ValueReadsBack(v: Json, s: string, i: nat)
    requires At(s, i, Print(v)) && Delimited(s, i + |Print(v)|)
    ensures ParseValue(s, i) == Got(v, i + |Print(v)|)
    decreases v, 0
  {
    match v
    case Null => NameReadsBack(v, s, i);
    case Bool(b) => NameReadsBack(v, s, i);
    case Int(n) => NumberReadsBack(n, s, i);
    case Str(t) =>
      QuoteSplits(t, s, i);
      TextReadsBack(t, s, i + 1);
    case Arr(xs) => ArrayReadsBack(xs, s, i);
    case Obj(ms) => ObjectReadsBack(ms, s, i);
  }

  lemma {:induction false} ArrayReadsBack(xs: seq<Json>, s: string, i: nat)
    requires At(s, i, Print(Arr(xs)))
    ensures ParseValue(s, i) == Got(Arr(xs), i + |Print(Arr(xs))|)
    decreases xs, 2
  {
    ArraySplits(xs, s, i);
    if xs != [] {
      ElemsReadBack(xs, s, i + 1);
    }
  }

  lemma {:induction false} ObjectReadsBack(ms: seq<Member>, s: string, i: nat)
    requires At(s, i, Print(Obj(ms)))
    ensures ParseValue(s, i) == Got(Obj(ms), i + |Print(Obj(ms))|)
    decreases ms, 3
  {
    ObjectSplits(ms, s, i);
    if ms != [] {
      MembersReadBack(ms, s, i + 1);
    }
  }

  lemma QuoteSplits(t: string, s: string, i: nat)
    requires At(s, i, Quote(t))
    ensures s[i] == '\"' && At(s, i + 1, EscapeText(t) + "\"")
  {
    assert Quote(t) == "\"" + (EscapeText(t) + "\"");
    AtConcat(s, i, "\"", EscapeText(t) + "\"");
    assert s[i + 0] == "\""[0];
  }

  lemma ArraySplits(xs: seq<Json>, s: string, i: nat)
    requires At(s, i, Print(Arr(xs)))
    ensures s[i] == '[' && At(s, i + 1, PrintElems(xs) + "]")
    ensures s[i + 1] == ']' <==> xs == []
  {
    assert Print(Arr(xs)) == "[" + (PrintElems(xs) + "]");
    AtConcat(s, i, "[", PrintElems(xs) + "]");
    assert s[i + 0] == "["[0] && s[i + 1 + 0] == (PrintElems(xs) + "]")[0];
    if xs != [] {
      PrintIsNonEmpty(xs[0]);
    }
  }

  lemma ObjectSplits(ms: seq<Member>, s: string, i: nat)
    requires At(s, i, Print(Obj(ms)))
    ensures s[i] == '{' && At(s, i + 1, PrintMembers(ms) + "}")
    ensures s[i + 1] == '}' <==> ms == []
  {
    assert Print(Obj(ms)) == "{" + (PrintMembers(ms) + "}");
    AtConcat(s, i, "{", PrintMembers(ms) + "}");
    assert s[i + 0] == "{"[0] && s[i + 1 + 0] == (PrintMembers(ms) + "}")[0];
    assert ms != [] ==> PrintMember(ms[0])[0] == '\"';
  }

  lemma PrintIsNonEmpty(v: Json)
    ensures Print(v) != "" && Print(v)[0] != ']'
  {
    if v.Int? {
      assert Print(v)[0] == '-' || IsDigit(Print(v)[0]);
    }
  }

  lemma ElemsStep(s: string, i: nat, v: Json, j: nat, vs: seq<Json>, k: nat)
    requires ParseValue(s, i) == Got(v, j)
    requires j < |s| && s[j] == ',' && ParseElems(s, j + 1) == Got(vs, k)
    ensures ParseElems(s, i) == Got([v] + vs, k)
  {
  }

  lemma {:induction false} ElemsReadBack(xs: seq<Json>, s: string, i: nat)
    requires xs != [] && At(s, i, PrintElems(xs) + "]")
    ensures ParseElems(s, i) == Got(xs, i + |PrintElems(xs)| + 1)
    decreases xs, 1
  {
    var j := i + |Print(xs[0])|;
    if |xs| == 1 {
      LastElemSplits(xs, s, i);
      ValueReadsBack(xs[0], s, i);
      assert [xs[0]] == xs;
    } else {
      ElemsSplit(xs, s, i);
      ValueReadsBack(xs[0], s, i);
      ElemsReadBack(xs[1..], s, j + 1);
      assert [xs[0]] + xs[1..] == xs;
      ElemsStep(s, i, xs[0], j, xs[1..], i + |PrintElems(xs)| + 1);
    }
  }

  lemma LastElemSplits(xs: seq<Json>, s: string, i: nat)
    requires |xs| == 1 && At(s, i, PrintElems(xs) + "]")
    ensures PrintElems(xs) == Print(xs[0]) && At(s, i, Print(xs[0]))
    ensures i + |Print(xs[0])| < |s| && s[i + |Print(xs[0])|] == ']'
  {
    assert PrintElems(xs) + "]" == Print(xs[0]) + "]" + "";
    PairSplits(Print(xs[0]), "]", "", s, i);
  }

  lemma ElemsSplit(xs: seq<Json>, s: string, i: nat)
    requires |xs| > 1 && At(s, i, PrintElems(xs) + "]")
    ensures var p := Print(xs[0]);
      && At(s, i, p) && i + |p| < |s| && s[i + |p|] == ','
      && |PrintElems(xs)| == |p| + 1 + |PrintElems(xs[1..])| && At(s, i + |p| + 1, PrintElems(xs[1..]) + "]")
  {
    ListSplits(Print(xs[0]), PrintElems(xs[1..]), "]", s, i);
  }

  lemma PairSplits(head: string, mark: string, tail: string, s: string, i: nat)
    requires |mark| == 1 && At(s, i, head + mark + tail)
    ensures At(s, i, head) && i + |head| < |s| && s[i + |head|] == mark[0]
    ensures At(s, i + |head| + 1, tail)
  {
    AtConcat(s, i, head + mark, tail);
    AtConcat(s, i, head, mark);
  }

  lemma ListSplits(head: string, tail: string, close: string, s: string, i: nat)
    requires At(s, i, head + "," + tail + close)
    ensures At(s, i, head) && i + |head| < |s| && s[i + |head|] == ','
    ensures At(s, i + |head| + 1, tail + close)
  {
    assert head + "," + tail + close == head + "," + (tail + close);
    PairSplits(head, ",", tail + close, s, i);
  }

  lemma {:induction false} MemberReadsBack(m: Member, s: string, i: nat)
    requires At(s, i, PrintMember(m)) && Delimited(s, i + |PrintMember(m)|)
    ensures ParseMember(s, i) == Got(m, i + |PrintMember(m)|)
    decreases m, 1
  {
    var j := i + 1 + |EscapeText(m.key)| + 1;
    MemberSplits(m, s, i);
    TextReadsBack(m.key, s, i + 1);
    ValueReadsBack(m.value, s, j + 1);
    MemberStep(s, i, m.key, j, m.value, i + |PrintMember(m)|);
  }

  lemma MemberStep(s: string, i: nat, key: string, j: nat, v: Json, k: nat)
    requires i < |s| && s[i] == '\"' && ParseText(s, i + 1) == Got(key, j)
    requires j < |s| && s[j] == ':' && ParseValue(s, j + 1) == Got(v, k)
    ensures ParseMember(s, i) == Got(Member(key, v), k)
  {
  }

  lemma MemberSplits(m: Member, s: string, i: nat)
    requires At(s, i, PrintMember(m))
    ensures var j := i + 1 + |EscapeText(m.key)| + 1;
      && i + |PrintMember(m)| == j + 1 + |Print(m.value)|
      && s[i] == '\"' && At(s, i + 1, EscapeText(m.key) + "\"")
      && s[j] == ':' && At(s, j + 1, Print(m.value))
  {
    PairSplits(Quote(m.key), ":", Print(m.value), s, i);
    QuoteSplits(m.key, s, i);
  }

  lemma MembersStep(s: string, i: nat, m: Member, j: nat, ms: seq<Member>, k: nat)
    requires ParseMember(s, i) == Got(m, j)
    requires j < |s| && s[j] == ',' && ParseMembers(s, j + 1) == Got(ms, k)
    ensures ParseMembers(s, i) == Got([m] + ms, k)
  {
  }

  lemma MembersLast(s: string, i: nat, m: Member, j: nat)
    requires ParseMember(s, i) == Got(m, j)
    requires j < |s| && s[j] == '}'
    ensures ParseMembers(s, i) == Got([m], j + 1)
  {
  }

  lemma {:induction false} MembersReadBack(ms: seq<Member>, s: string, i: nat)
    requires ms != [] && At(s, i, PrintMembers(ms) + "}")
    ensures ParseMembers(s, i) == Got(ms, i + |PrintMembers(ms)| + 1)
    decreases ms, 2
  {
    MembersSplit(ms, s, i);
    MemberReadsBack(ms[0], s, i);
    MembersReadBackFrom(ms, s, i, i + |PrintMember(ms[0])|);
  }

  lemma {:induction false} MembersReadBackFrom(ms: seq<Member>, s: string, i: nat, j: nat)
    requires ms != [] && ParseMember(s, i) == Got(ms[0], j) && j < |s|
    requires if |ms| == 1 then s[j] == '}' else s[j] == ',' && At(s, j + 1, PrintMembers(ms[1..]) + "}")
    ensures ParseMembers(s, i) == Got(ms, if |ms| == 1 then j + 1 else j + 1 + |PrintMembers(ms[1..])| + 1)
    decreases ms, 1
  {
    if |ms| == 1 {
      MembersLast(s, i, ms[0], j);
      assert [ms[0]] == ms;
    } else {
      var k := j + 1 + |PrintMembers(ms[1..])| + 1;
      MembersReadBack(ms[1..], s, j + 1);
      MembersStep(s, i, ms[0], j, ms[1..], k);
      assert [ms[0]] + ms[1..] == ms;
    }
  }

  lemma MembersSplit(ms: seq<Member>, s: string, i: nat)
    requires ms != [] && At(s, i, PrintMembers(ms) + "}")
    ensures var p := PrintMember(ms[0]);
      && At(s, i, p) && i + |p| < |s|
      && if |ms| == 1 then PrintMembers(ms) == p && s[i + |p|] == '}'
         else |PrintMembers(ms)| == |p| + 1 + |PrintMembers(ms[1..])| && s[i + |p|] == ','
              && At(s, i + |p| + 1, PrintMembers(ms[1..]) + "}")
  {
    var p := PrintMember(ms[0]);
    if |ms| == 1 {
      assert PrintMembers(ms) + "}" == p + "}" + "";
      PairSplits(p, "}", "", s, i);
    } else {
      ListSplits(p, PrintMembers(ms[1..]), "}", s, i);
    }
  }

  /** Parsing the printed text returns the value, members in their order. */
  lemma RoundTrip(v: Json)
    ensures Parse(Print(v)) == Some(v)
  {
    ValueReadsBack(v, Print(v), 0);
  }

  lemma PrintIsInjective(a: Json, b: Json)
    requires Print(a) == Print(b)
    ensures a == b
  {
    RoundTrip(a);
    RoundTrip(b);
  }

  // ---- a cut text is never mistaken for a whole one ----

  lemma CharExtends(s: string, t: string, i: nat)
    requires s <= t && ParseChar(s, i).Got?
    ensures ParseChar(t, i) == ParseChar(s, i)
  {
  }

  lemma {:induction false} TextExtends(s: string, t: string, i: nat)
    requires s <= t && ParseText(s, i).Got?
    ensures ParseText(t, i) == ParseText(s, i)
    decreases |s| - i
  {
    if s[i] != '\"' {
      CharExtends(s, t, i);
      TextExtends(s, t, ParseChar(s, i).next);
    }
  }

  lemma {:induction false} DigitsExtend(s: string, t: string, i: nat)
    requires s <= t && i <= |s| && DigitsEnd(s, i) < |s|
    ensures DigitsEnd(t, i) == DigitsEnd(s, i)
    decreases |s| - i
  {
    if IsDigit(s[i]) {
      DigitsExtend(s, t, i + 1);
    }
  }

  lemma NumberExtends(s: string, t: string, i: nat)
    requires s <= t && i < |s| && ParseNumber(s, i).Got? && ParseNumber(s, i).next < |s|
    ensures ParseNumber(t, i) == ParseNumber(s, i)
  {
    var start := if s[i] == '-' then i + 1 else i;
    DigitsExtend(s, t, start);
    assert s[start..DigitsEnd(s, start)] == t[start..DigitsEnd(s, start)];
  }

  lemma WordExtends(word: string, v: Json, s: string, t: string, i: nat)
    requires s <= t && word != "" && ParseWord(word, v, s, i).Got?
    ensures ParseWord(word, v, t, i) == ParseWord(word, v, s, i)
  {
  }

  /** A value read from a text is read from every longer text; only a number that reaches
      the end could go on. */
  lemma {:induction false} ValueExtends(s: string, t: string, i: nat)
    requires s <= t && ParseValue(s, i).Got?
    requires ParseValue(s, i).value.Int? ==> ParseValue(s, i).next < |s|
    ensures ParseValue(t, i) == ParseValue(s, i)
    decreases |s| - i, 0
  {
    match s[i]
    case '\"' => TextExtends(s, t, i + 1);
    case '[' =>
      if !(i + 1 < |s| && s[i + 1] == ']') {
        ElemsExtend(s, t, i + 1);
      }
    case '{' =>
      if !(i + 1 < |s| && s[i + 1] == '}') {
        MembersExtend(s, t, i + 1);
      }
    case 'n' => WordExtends("null", Null, s, t, i);
    case 't' => WordExtends("true", Bool(true), s, t, i);
    case 'f' => WordExtends("false", Bool(false), s, t, i);
    case _ => NumberExtends(s, t, i);
  }

  lemma {:induction false} ElemsExtend(s: string, t: string, i: nat)
    requires s <= t && ParseElems(s, i).Got?
    ensures ParseElems(t, i) == ParseElems(s, i)
    decreases |s| - i, 1
  {
    ValueExtends(s, t, i);
    var Got(v, j) := ParseValue(s, i);
    if s[j] == ',' {
      ElemsExtend(s, t, j + 1);
      var Got(vs, k) := ParseElems(s, j + 1);
      ElemsStep(t, i, v, j, vs, k);
    }
  }

  lemma {:induction false} MemberExtends(s: string, t: string, i: nat)
    requires s <= t && ParseMember(s, i).Got? && ParseMember(s, i).next < |s|
    ensures ParseMember(t, i) == ParseMember(s, i)
    decreases |s| - i, 1
  {
    TextExtends(s, t, i + 1);
    ValueExtends(s, t, ParseText(s, i + 1).next + 1);
  }

  lemma {:induction false} MembersExtend(s: string, t: string, i: nat)
    requires s <= t && ParseMembers(s, i).Got?
    ensures ParseMembers(t, i) == ParseMembers(s, i)
    decreases |s| - i, 2
  {
    MemberExtends(s, t, i);
    var Got(m, j) := ParseMember(s, i);
    if s[j] == '}' {
      MembersLast(s, i, m, j);
      MembersLast(t, i, m, j);
    } else {
      MembersExtend(s, t, j + 1);
      var Got(ms, k) := ParseMembers(s, j + 1);
      MembersStep(t, i, m, j, ms, k);
    }
  }

  /** No proper prefix of a printed object parses. */
  lemma CutObjectIsRejected(ms: seq<Member>, cut: nat)
    requires cut < |Print(Obj(ms))|
    ensures Parse(Print(Obj(ms))[..cut]) == None
  {
    var whole := Print(Obj(ms));
    var t := whole[..cut];
    if Parse(t).Some? {
      assert t[0] == whole[0] == '{';
      ValueExtends(t, whole, 0);
      ValueReadsBack(Obj(ms), whole, 0);
      assert false;
    }
  }

  // ---- printed text is one line ----

  predicate OneLine(s: string) {
    '\n' !in s
  }

  lemma {:induction false} QuoteIsOneLine(s: string)
    ensures OneLine(EscapeText(s))
    decreases |s|
  {
    if s != "" {
      assert OneLine(EscapeChar(s[0]));
      QuoteIsOneLine(s[1..]);
    }
  }

  /** Printed JSON holds no raw line feed, whatever its strings contain. */
  lemma {:induction false} PrintIsOneLine(v: Json)
    ensures OneLine(Print(v))
    decreases v, 0
  {
    match v
    case Str(s) => QuoteIsOneLine(s);
    case Arr(xs) => ElemsAreOneLine(xs);
    case Obj(ms) => MembersAreOneLine(ms);
    case _ =>
  }

  lemma {:induction false} ElemsAreOneLine(xs: seq<Json>)
    ensures OneLine(PrintElems(xs))
    decreases xs, 1
  {
    if xs != [] {
      PrintIsOneLine(xs[0]);
      ElemsAreOneLine(xs[1..]);
    }
  }

  lemma {:induction false} MembersAreOneLine(ms: seq<Member>)
    ensures OneLine(PrintMembers(ms))
    decreases ms, 1
  {
    if ms != [] {
      QuoteIsOneLine(ms[0].key);
      PrintIsOneLine(ms[0].value);
      MembersAreOneLine(ms[1..]);
    }
  }
}
