/** canonical.js: recursive key sorting under JavaScript's own property order. Objects list
    their members in the order of section 10.1.11.1 of ECMA-262: array-index keys first, in
    numeric order, then the other keys in insertion order. */
module JsCanonical {
  import opened Text
  import opened Json
  import opened Sorting
  import opened Canonical
  import Grammar

  // ---- the order of Array.prototype.sort on strings ----

  /** A UTF-16 code unit as a char, in unit order: units from 0xD800 on are moved over the gap
      that char has there. */
  function UnitChar(u: nat): char
    requires u < 0x1_0000
  {
    if u < 0xD800 then u as char else (u + 0x800) as char
  }

  function CharUnits(c: char): (us: string)
    ensures us != ""
  {
    var n := c as int;
    if n < 0x1_0000 then [UnitChar(n)]
    else [UnitChar(0xD800 + (n - 0x1_0000) / 0x400), UnitChar(0xDC00 + (n - 0x1_0000) % 0x400)]
  }

  function Units(s: string): string {
    if s == "" then "" else CharUnits(s[0]) + Units(s[1..])
  }

  /** Before, by UTF-16 code units. */
  predicate UnitLess(a: string, b: string) {
    Less(Units(a), Units(b))
  }

  /** The code unit behind such a char. */
  function UnitOf(c: char): nat {
    if c as int < 0xD800 then c as int else c as int - 0x800
  }

  lemma UnitCharIsUnit(u: nat, v: nat)
    requires u < 0x1_0000 && v < 0x1_0000
    ensures UnitOf(UnitChar(u)) == u
    ensures UnitChar(u) < UnitChar(v) <==> u < v
  {
  }

  /** The units of a character are those of section 2.1 of RFC 2781: itself, or its surrogate
      pair. */
  lemma UnitsAreUtf16(c: char)
    ensures var us := CharUnits(c);
      if c as int < 0x1_0000 then |us| == 1 && UnitOf(us[0]) == c as int
      else |us| == 2 && Grammar.IsSurrogatePair(UnitOf(us[0]), UnitOf(us[1]), c as int)
  {
  }

  /** UnitLess is dictionary order by code unit. */
  lemma UnitLessMeans(a: string, b: string)
    ensures UnitLess(a, b) <==> Precedes(Units(a), Units(b))
  {
    LessIsPrecedes(Units(a), Units(b));
  }

  lemma SameQuotient(n: nat, m: nat)
    requires n / 0x400 == m / 0x400 && n % 0x400 == m % 0x400
    ensures n == m
  {
  }

  lemma CharUnitsAreSelfDelimiting(c: char, d: char, s: string, t: string)
    requires CharUnits(c) + s == CharUnits(d) + t
    ensures c == d && s == t
  {
    var e, f := CharUnits(c), CharUnits(d);
    var w := e + s;
    assert w[0] == e[0] == f[0];
    assert |e| == |f|;
    assert w[..|e|] == e && w[..|e|] == f;
    assert w[|e|..] == s && w[|e|..] == t;
    if |e| == 2 {
      assert e[1] == f[1];
      SameQuotient(c as int - 0x1_0000, d as int - 0x1_0000);
    }
  }

  lemma {:induction false} UnitsAreInjective(a: string, b: string)
    requires Units(a) == Units(b)
    ensures a == b
    decreases |a|
  {
    if a != "" && b != "" {
      CharUnitsAreSelfDelimiting(a[0], b[0], Units(a[1..]), Units(b[1..]));
      UnitsAreInjective(a[1..], b[1..]);
      assert a == [a[0]] + a[1..] && b == [b[0]] + b[1..];
    }
  }

  lemma UnitLessIsStrictTotal()
    ensures StrictTotal(UnitLess)
  {
    forall a ensures !UnitLess(a, a) {
      LessIsIrreflexive(Units(a));
    }
    forall a, b, c | UnitLess(a, b) && UnitLess(b, c) ensures UnitLess(a, c) {
      LessIsTransitive(Units(a), Units(b), Units(c));
    }
    forall a, b ensures UnitLess(a, b) || a == b || UnitLess(b, a) {
      LessIsTotal(Units(a), Units(b));
      if Units(a) == Units(b) {
        UnitsAreInjective(a, b);
      }
    }
  }

  /** The two languages sort keys differently: by code point, and by code unit. */
  lemma KeyOrdersDiffer()
    ensures Less("\U{FF5E}", "\U{1F600}") && UnitLess("\U{1F600}", "\U{FF5E}")
  {
    var a, b := "\U{1F600}", "\U{FF5E}";
    assert Units(b)[0] == UnitChar(0xFF5E);
    assert Units(a)[0] == UnitChar(0xD800 + (0x1_F600 - 0x1_0000) / 0x400);
  }

  // ---- property order ----

  const MAX_INDEX := 0xFFFF_FFFE

  predicate AllDigits(k: string) {
    forall i | 0 <= i < |k| :: IsDigit(k[i])
  }

  /** An array index: the canonical numeral of an integer below 2^32 - 1. */
  predicate IsIndex(k: string) {
    AllDigits(k) && Decimal(DecimalValue(k)) == k && DecimalValue(k) <= MAX_INDEX
  }

  /** As section 6.1.7 of ECMA-262 has it: an integer up to 2^32 - 2, written in decimal without a
      leading zero. */
  lemma IndexMeans(k: string)
    ensures IsIndex(k) <==> exists n: nat :: n < 0x1_0000_0000 - 1 && Grammar.IsNatural(k, n)
  {
    if IsIndex(k) {
      Grammar.DecimalIsNatural(DecimalValue(k));
    }
    if n: nat :| n < 0x1_0000_0000 - 1 && Grammar.IsNatural(k, n) {
      Grammar.NaturalIsDecimal(k, n);
    }
  }

  predicate InPropertyOrder(ms: seq<Member>) {
    forall i, j | 0 <= i < j < |ms| && IsIndex(ms[j].key) ::
      IsIndex(ms[i].key) && DecimalValue(ms[i].key) < DecimalValue(ms[j].key)
  }

  /** The values JavaScript can hold. */
  predicate JsValue(v: Json)
    decreases v
  {
    match v
    case Arr(xs) => forall i | 0 <= i < |xs| :: JsValue(xs[i])
    case Obj(ms) => DistinctKeys(ms) && InPropertyOrder(ms) && forall i | 0 <= i < |ms| :: JsValue(ms[i].value)
    case _ => true
  }

  /** The order normalization gives: index keys by number, then the others by code unit. */
  predicate Before(a: string, b: string) {
    if IsIndex(a) then IsIndex(b) ==> DecimalValue(a) < DecimalValue(b)
    else !IsIndex(b) && UnitLess(a, b)
  }

  lemma BeforeIsStrictTotal()
    ensures StrictTotal(Before)
  {
    UnitLessIsStrictTotal();
    forall a ensures !Before(a, a) {
      assert !UnitLess(a, a);
    }
    forall a, b, c | Before(a, b) && Before(b, c) ensures Before(a, c) {
    }
    forall a, b ensures Before(a, b) || a == b || Before(b, a) {
      if IsIndex(a) && IsIndex(b) && DecimalValue(a) == DecimalValue(b) {
        assert a == Decimal(DecimalValue(b)) == b;
      }
    }
  }

  /** The members whose key is, or is not, an index. */
  function Keep(ms: seq<Member>, indices: bool): seq<Member> {
    if ms == [] then []
    else (if IsIndex(ms[0].key) == indices then [ms[0]] else []) + Keep(ms[1..], indices)
  }

  /** Object.fromEntries: the properties of the new object come in property order. */
  function FromEntries(es: seq<Member>): seq<Member> {
    Sort(Keep(es, true), Before) + Keep(es, false)
  }

  // ---- normalize ----

  predicate HasKey(ms: seq<Member>, key: string) {
    exists i | 0 <= i < |ms| :: ms[i].key == key
  }

  /** An object with an own "constructor" property fails the guard, and is returned as it is. */
  function Normalize(v: Json): Json
    decreases v, 1
  {
    match v
    case Arr(xs) => Arr(NormalElems(xs))
    case Obj(ms) =>
      if HasKey(ms, "constructor") then v else Obj(FromEntries(Sort(NormalMembers(ms), UnitLess)))
    case _ => v
  }

  function NormalElems(xs: seq<Json>): (r: seq<Json>)
    ensures |r| == |xs| && forall i | 0 <= i < |xs| :: r[i] == Normalize(xs[i])
    decreases xs, 0
  {
    if xs == [] then [] else [Normalize(xs[0])] + NormalElems(xs[1..])
  }

  function NormalMembers(ms: seq<Member>): (r: seq<Member>)
    ensures |r| == |ms|
    ensures forall i | 0 <= i < |ms| :: r[i] == Member(ms[i].key, Normalize(ms[i].value))
    decreases ms, 0
  {
    if ms == [] then [] else [Member(ms[0].key, Normalize(ms[0].value))] + NormalMembers(ms[1..])
  }

  // ---- a normalized object is sorted ----

  lemma {:induction false} KeepMembers(ms: seq<Member>, indices: bool, m: Member)
    ensures m in Keep(ms, indices) <==> m in ms && IsIndex(m.key) == indices
    decreases |ms|
  {
    if ms != [] {
      KeepMembers(ms[1..], indices, m);
      assert ms == [ms[0]] + ms[1..];
    }
  }

  lemma {:induction false} KeepAscends(ms: seq<Member>, indices: bool, less: Order)
    requires Ascending(ms, less)
    ensures Ascending(Keep(ms, indices), less)
    decreases |ms|
  {
    if ms != [] {
      KeepAscends(ms[1..], indices, less);
      var k := Keep(ms[1..], indices);
      forall j | 0 <= j < |k| ensures less(ms[0].key, k[j].key) {
        KeepMembers(ms[1..], indices, k[j]);
      }
    }
  }

  lemma NamesAscend(ms: seq<Member>)
    requires Ascending(ms, UnitLess)
    ensures Ascending(Keep(ms, false), Before)
  {
    KeepAscends(ms, false, UnitLess);
    var k := Keep(ms, false);
    forall i, j | 0 <= i < j < |k| ensures Before(k[i].key, k[j].key) {
      KeepMembers(ms, false, k[i]);
      KeepMembers(ms, false, k[j]);
    }
  }

  lemma IndicesAscend(ms: seq<Member>)
    requires Ascending(ms, UnitLess)
    ensures Ascending(Sort(Keep(ms, true), Before), Before)
  {
    KeepAscends(ms, true, UnitLess);
    UnitLessIsStrictTotal();
    AscendingIsDistinct(Keep(ms, true), UnitLess);
    BeforeIsStrictTotal();
    SortAscends(Keep(ms, true), Before);
  }

  lemma FromEntriesMembers(es: seq<Member>, m: Member)
    ensures m in FromEntries(es) <==> m in es
  {
    SortKeeps(Keep(es, true), Before, m);
    KeepMembers(es, true, m);
    KeepMembers(es, false, m);
  }

  lemma FromEntriesAscends(es: seq<Member>)
    requires Ascending(es, UnitLess)
    ensures Ascending(FromEntries(es), Before)
  {
    IndicesAscend(es);
    NamesAscend(es);
    var p, q := Sort(Keep(es, true), Before), Keep(es, false);
    forall i, j | 0 <= i < |p| && 0 <= j < |q| ensures Before(p[i].key, q[j].key) {
      SortKeeps(Keep(es, true), Before, p[i]);
      KeepMembers(es, true, p[i]);
      KeepMembers(es, false, q[j]);
    }
  }

  /** The entries of an object after normalization: the same ones, in the one order. */
  function Arranged(es: seq<Member>): seq<Member> {
    FromEntries(Sort(es, UnitLess))
  }

  lemma ArrangedIsSorted(es: seq<Member>)
    requires DistinctKeys(es)
    ensures Ascending(Arranged(es), Before)
  {
    UnitLessIsStrictTotal();
    SortAscends(es, UnitLess);
    FromEntriesAscends(Sort(es, UnitLess));
  }

  lemma ArrangedMembers(es: seq<Member>, m: Member)
    ensures m in Arranged(es) <==> m in es
  {
    FromEntriesMembers(Sort(es, UnitLess), m);
    SortKeeps(es, UnitLess, m);
  }

  lemma SameArranged(p: seq<Member>, q: seq<Member>)
    requires Ascending(p, Before) && Ascending(q, Before) && forall m :: m in p <==> m in q
    ensures p == q
  {
    BeforeIsStrictTotal();
    AscendingIsUnique(p, q, Before);
  }

  lemma BeforeIsPropertyOrder(p: seq<Member>)
    requires Ascending(p, Before)
    ensures DistinctKeys(p) && InPropertyOrder(p)
  {
    BeforeIsStrictTotal();
    AscendingIsDistinct(p, Before);
    forall i, j | 0 <= i < j < |p| && IsIndex(p[j].key)
      ensures IsIndex(p[i].key) && DecimalValue(p[i].key) < DecimalValue(p[j].key)
    {
      assert Before(p[i].key, p[j].key);
    }
  }

  // ---- normalization keeps the value and is idempotent ----

  lemma {:induction false} JsValuesAreValid(v: Json)
    requires JsValue(v)
    ensures Valid(v)
    decreases v
  {
    match v
    case Arr(xs) =>
      forall i | 0 <= i < |xs| ensures Valid(xs[i]) {
        JsValuesAreValid(xs[i]);
      }
    case Obj(ms) =>
      forall i | 0 <= i < |ms| ensures Valid(ms[i].value) {
        JsValuesAreValid(ms[i].value);
      }
    case _ =>
  }

  ghost predicate NormalOf(ms: seq<Member>, m: Member) {
    exists i | 0 <= i < |ms| :: ms[i].key == m.key && Normalize(ms[i].value) == m.value
  }

  /** The members of a normalized object. */
  function NormalForm(ms: seq<Member>): seq<Member> {
    Arranged(NormalMembers(ms))
  }

  lemma NormalFormMembers(ms: seq<Member>, m: Member)
    ensures m in NormalForm(ms) <==> NormalOf(ms, m)
  {
    var es := NormalMembers(ms);
    ArrangedMembers(es, m);
    if m in es {
      var i :| 0 <= i < |es| && es[i] == m;
      assert ms[i].key == m.key;
    }
    if i :| 0 <= i < |ms| && ms[i].key == m.key && Normalize(ms[i].value) == m.value {
      assert es[i] == m;
    }
  }

  lemma NormalFormIsSorted(ms: seq<Member>)
    requires DistinctKeys(ms)
    ensures Ascending(NormalForm(ms), Before)
    ensures DistinctKeys(NormalForm(ms)) && InPropertyOrder(NormalForm(ms))
  {
    ArrangedIsSorted(NormalMembers(ms));
    BeforeIsPropertyOrder(NormalForm(ms));
  }

  lemma NormalFormKeys(ms: seq<Member>, key: string)
    ensures HasKey(NormalForm(ms), key) <==> HasKey(ms, key)
  {
    var r := NormalForm(ms);
    if j :| 0 <= j < |r| && r[j].key == key {
      NormalFormMembers(ms, r[j]);
    }
    if i :| 0 <= i < |ms| && ms[i].key == key {
      NormalFormMembers(ms, Member(key, Normalize(ms[i].value)));
    }
  }

  lemma NormalFormIsValue(ms: seq<Member>)
    requires DistinctKeys(ms) && forall i | 0 <= i < |ms| :: JsValue(Normalize(ms[i].value))
    ensures JsValue(Obj(NormalForm(ms)))
  {
    NormalFormIsSorted(ms);
    var r := NormalForm(ms);
    forall j | 0 <= j < |r| ensures JsValue(r[j].value) {
      NormalFormMembers(ms, r[j]);
    }
  }

  /** Normalizing gives a value that JavaScript can hold. */
  lemma {:induction false} NormalizedIsValue(v: Json)
    requires JsValue(v)
    ensures JsValue(Normalize(v))
    decreases v
  {
    match v
    case Arr(xs) =>
      forall i | 0 <= i < |xs| ensures JsValue(Normalize(xs[i])) {
        NormalizedIsValue(xs[i]);
      }
    case Obj(ms) =>
      forall i | 0 <= i < |ms| ensures JsValue(Normalize(ms[i].value)) {
        NormalizedIsValue(ms[i].value);
      }
      NormalFormIsValue(ms);
    case _ =>
  }

  /** Every object comes in the one order, at every depth down to an object that the guard
      skipped. */
  ghost predicate PropertiesInOrder(v: Json)
    decreases v
  {
    match v
    case Arr(xs) => forall i | 0 <= i < |xs| :: PropertiesInOrder(xs[i])
    case Obj(ms) =>
      HasKey(ms, "constructor")
      || (MembersAhead(ms) && forall i | 0 <= i < |ms| :: PropertiesInOrder(ms[i].value))
    case _ => true
  }

  /** Of two members the first has the smaller index, or an index and the second none, or neither
      has one and its key comes first in dictionary order by code unit. */
  ghost predicate MembersAhead(ms: seq<Member>) {
    forall i, j | 0 <= i < j < |ms| :: KeyAhead(ms[i].key, ms[j].key)
  }

  ghost predicate KeyAhead(a: string, b: string) {
    || (IsIndex(a) && IsIndex(b) && DecimalValue(a) < DecimalValue(b))
    || (IsIndex(a) && !IsIndex(b))
    || (!IsIndex(a) && !IsIndex(b) && Precedes(Units(a), Units(b)))
  }

  lemma AscendingIsAhead(ms: seq<Member>)
    requires Ascending(ms, Before)
    ensures MembersAhead(ms)
  {
    forall i, j | 0 <= i < j < |ms| ensures KeyAhead(ms[i].key, ms[j].key) {
      UnitLessMeans(ms[i].key, ms[j].key);
    }
  }

  lemma {:induction false} NormalizedIsInOrder(v: Json)
    requires Valid(v)
    ensures PropertiesInOrder(Normalize(v))
    decreases v
  {
    match v
    case Arr(xs) =>
      forall i | 0 <= i < |xs| ensures PropertiesInOrder(Normalize(xs[i])) {
        NormalizedIsInOrder(xs[i]);
      }
    case Obj(ms) =>
      if !HasKey(ms, "constructor") {
        NormalFormIsSorted(ms);
        var r := NormalForm(ms);
        AscendingIsAhead(r);
        forall j | 0 <= j < |r| ensures PropertiesInOrder(r[j].value) {
          NormalFormMembers(ms, r[j]);
          var i :| 0 <= i < |ms| && ms[i].key == r[j].key && Normalize(ms[i].value) == r[j].value;
          NormalizedIsInOrder(ms[i].value);
        }
      }
    case _ =>
  }

  /** Normalizing twice changes nothing more. */
  lemma {:induction false} NormalizeIsIdempotent(v: Json)
    requires JsValue(v)
    ensures Normalize(Normalize(v)) == Normalize(v)
    decreases v
  {
    match v
    case Arr(xs) =>
      var ys := NormalElems(xs);
      forall i | 0 <= i < |xs| ensures Normalize(ys[i]) == ys[i] {
        NormalizeIsIdempotent(xs[i]);
      }
      assert NormalElems(ys) == ys;
    case Obj(ms) =>
      if !HasKey(ms, "constructor") {
        var r := NormalForm(ms);
        forall j | 0 <= j < |r| ensures Normalize(r[j].value) == r[j].value {
          NormalFormMembers(ms, r[j]);
          var i :| 0 <= i < |ms| && ms[i].key == r[j].key && Normalize(ms[i].value) == r[j].value;
          NormalizeIsIdempotent(ms[i].value);
        }
        NormalFormIsFixed(ms);
      }
    case _ =>
  }

  lemma NormalFormIsFixed(ms: seq<Member>)
    requires DistinctKeys(ms) && !HasKey(ms, "constructor")
    requires forall j | 0 <= j < |NormalForm(ms)| :: Normalize(NormalForm(ms)[j].value) == NormalForm(ms)[j].value
    ensures Normalize(Obj(NormalForm(ms))) == Obj(NormalForm(ms))
  {
    var r := NormalForm(ms);
    NormalFormKeys(ms, "constructor");
    assert NormalMembers(r) == r;
    NormalFormIsSorted(ms);
    ArrangedIsSorted(r);
    forall m ensures m in Arranged(r) <==> m in r {
      ArrangedMembers(r, m);
    }
    SameArranged(Arranged(r), r);
  }

  /** Normalizing keeps the value up to key order. */
  lemma {:induction false} NormalizeKeepsValue(v: Json)
    requires JsValue(v)
    ensures Equal(v, Normalize(v))
    decreases v
  {
    match v
    case Arr(xs) =>
      forall i | 0 <= i < |xs| ensures Equal(xs[i], Normalize(xs[i])) {
        NormalizeKeepsValue(xs[i]);
      }
    case Obj(ms) =>
      if HasKey(ms, "constructor") {
        JsValuesAreValid(v);
        EqualIsReflexive(v);
      } else {
        forall i | 0 <= i < |ms| ensures Equal(ms[i].value, Normalize(ms[i].value)) {
          NormalizeKeepsValue(ms[i].value);
        }
        NormalFormIsEqual(ms);
      }
    case _ =>
  }

  lemma NormalFormIsEqual(ms: seq<Member>)
    requires forall i | 0 <= i < |ms| :: Equal(ms[i].value, Normalize(ms[i].value))
    ensures Equal(Obj(ms), Obj(NormalForm(ms)))
  {
    var r := NormalForm(ms);
    forall i | 0 <= i < |ms| ensures HasEqualIn(ms[i], r) {
      var m := Member(ms[i].key, Normalize(ms[i].value));
      NormalFormMembers(ms, m);
      var j :| 0 <= j < |r| && r[j] == m;
    }
    forall j | 0 <= j < |r| ensures IsEqualOf(ms, r[j]) {
      NormalFormMembers(ms, r[j]);
    }
  }

  /** What normalizes alike is equal, objects with a "constructor" key included. */
  lemma SameNormalIsEqual(a: Json, b: Json)
    requires JsValue(a) && JsValue(b) && Normalize(a) == Normalize(b)
    ensures Equal(a, b)
  {
    NormalizeKeepsValue(a);
    NormalizeKeepsValue(b);
    NormalizedIsValue(a);
    JsValuesAreValid(a);
    JsValuesAreValid(b);
    JsValuesAreValid(Normalize(a));
    EqualIsEquivalence(b, Normalize(b), a);
    EqualIsEquivalence(a, Normalize(a), b);
  }

  // ---- when equal values normalize alike ----

  predicate AtMostOneName(ms: seq<Member>) {
    forall i, j | 0 <= i < j < |ms| :: IsIndex(ms[i].key) || IsIndex(ms[j].key)
  }

  /** Only one property order is possible at every level. */
  predicate Rigid(v: Json)
    decreases v
  {
    match v
    case Arr(xs) => forall i | 0 <= i < |xs| :: Rigid(xs[i])
    case Obj(ms) => AtMostOneName(ms) && forall i | 0 <= i < |ms| :: Rigid(ms[i].value)
    case _ => true
  }

  /** Objects that normalize leaves alone are rigid. */
  predicate Steady(v: Json)
    decreases v
  {
    match v
    case Arr(xs) => forall i | 0 <= i < |xs| :: Steady(xs[i])
    case Obj(ms) =>
      if HasKey(ms, "constructor") then Rigid(v) else forall i | 0 <= i < |ms| :: Steady(ms[i].value)
    case _ => true
  }

  predicate NoConstructor(v: Json)
    decreases v
  {
    match v
    case Arr(xs) => forall i | 0 <= i < |xs| :: NoConstructor(xs[i])
    case Obj(ms) => !HasKey(ms, "constructor") && forall i | 0 <= i < |ms| :: NoConstructor(ms[i].value)
    case _ => true
  }

  lemma {:induction false} NoConstructorIsSteady(v: Json)
    requires NoConstructor(v)
    ensures Steady(v)
    decreases v
  {
    match v
    case Arr(xs) =>
      forall i | 0 <= i < |xs| ensures Steady(xs[i]) {
        NoConstructorIsSteady(xs[i]);
      }
    case Obj(ms) =>
      forall i | 0 <= i < |ms| ensures Steady(ms[i].value) {
        NoConstructorIsSteady(ms[i].value);
      }
    case _ =>
  }

  lemma EqualHasSameKeys(ms: seq<Member>, ns: seq<Member>, key: string)
    requires Equal(Obj(ms), Obj(ns))
    ensures HasKey(ms, key) <==> HasKey(ns, key)
  {
    if i :| 0 <= i < |ms| && ms[i].key == key {
      assert HasEqualIn(ms[i], ns);
    }
    if j :| 0 <= j < |ns| && ns[j].key == key {
      assert IsEqualOf(ms, ns[j]);
    }
  }

  lemma OneNameIsSorted(ms: seq<Member>)
    requires DistinctKeys(ms) && InPropertyOrder(ms) && AtMostOneName(ms)
    ensures Ascending(ms, Before)
  {
  }

  lemma EqualHasOneName(ms: seq<Member>, ns: seq<Member>)
    requires Equal(Obj(ms), Obj(ns)) && AtMostOneName(ms) && DistinctKeys(ns)
    ensures AtMostOneName(ns)
  {
    forall i, j | 0 <= i < j < |ns| ensures IsIndex(ns[i].key) || IsIndex(ns[j].key) {
      assert IsEqualOf(ms, ns[i]) && IsEqualOf(ms, ns[j]);
    }
  }

  /** A rigid value has no other value equal to it. */
  lemma {:induction false} RigidIsAlone(a: Json, b: Json)
    requires JsValue(a) && JsValue(b) && Equal(a, b) && Rigid(a)
    ensures a == b
    decreases a
  {
    match (a, b)
    case (Arr(xs), Arr(ys)) =>
      forall i | 0 <= i < |xs| ensures xs[i] == ys[i] {
        RigidIsAlone(xs[i], ys[i]);
      }
    case (Obj(ms), Obj(ns)) =>
      OneNameIsSorted(ms);
      EqualHasOneName(ms, ns);
      OneNameIsSorted(ns);
      forall i, j | 0 <= i < |ms| && 0 <= j < |ns| && ns[j].key == ms[i].key && Equal(ms[i].value, ns[j].value)
        ensures ms[i] == ns[j]
      {
        RigidIsAlone(ms[i].value, ns[j].value);
      }
      SameMembers(ms, ns);
      SameArranged(ms, ns);
    case _ =>
  }

  lemma SameMembers(ms: seq<Member>, ns: seq<Member>)
    requires Equal(Obj(ms), Obj(ns))
    requires forall i, j | 0 <= i < |ms| && 0 <= j < |ns|
        && ns[j].key == ms[i].key && Equal(ms[i].value, ns[j].value) ::
      ms[i] == ns[j]
    ensures forall m :: m in ms <==> m in ns
  {
    forall i | 0 <= i < |ms| ensures ms[i] in ns {
      assert HasEqualIn(ms[i], ns);
    }
    forall j | 0 <= j < |ns| ensures ns[j] in ms {
      assert IsEqualOf(ms, ns[j]);
    }
  }

  /** A steady value normalizes like every value equal to it. */
  lemma {:induction false} SteadyNormalizesAlike(a: Json, b: Json)
    requires JsValue(a) && JsValue(b) && Equal(a, b) && Steady(a)
    ensures Normalize(a) == Normalize(b)
    decreases a
  {
    match (a, b)
    case (Arr(xs), Arr(ys)) =>
      forall i | 0 <= i < |xs| ensures Normalize(xs[i]) == Normalize(ys[i]) {
        SteadyNormalizesAlike(xs[i], ys[i]);
      }
      assert NormalElems(xs) == NormalElems(ys);
    case (Obj(ms), Obj(ns)) =>
      EqualHasSameKeys(ms, ns, "constructor");
      if HasKey(ms, "constructor") {
        RigidIsAlone(a, b);
      } else {
        forall i, j | 0 <= i < |ms| && 0 <= j < |ns| && ns[j].key == ms[i].key && Equal(ms[i].value, ns[j].value)
          ensures Normalize(ms[i].value) == Normalize(ns[j].value)
        {
          SteadyNormalizesAlike(ms[i].value, ns[j].value);
        }
        SameNormalForm(ms, ns);
      }
    case _ =>
  }

  lemma SameNormalForm(ms: seq<Member>, ns: seq<Member>)
    requires Equal(Obj(ms), Obj(ns)) && DistinctKeys(ms) && DistinctKeys(ns)
    requires forall i, j | 0 <= i < |ms| && 0 <= j < |ns|
        && ns[j].key == ms[i].key && Equal(ms[i].value, ns[j].value) ::
      Normalize(ms[i].value) == Normalize(ns[j].value)
    ensures NormalForm(ms) == NormalForm(ns)
  {
    forall m ensures m in NormalForm(ms) <==> m in NormalForm(ns) {
      NormalFormMembers(ms, m);
      NormalFormMembers(ns, m);
      if i :| 0 <= i < |ms| && ms[i].key == m.key && Normalize(ms[i].value) == m.value {
        assert HasEqualIn(ms[i], ns);
      }
      if j :| 0 <= j < |ns| && ns[j].key == m.key && Normalize(ns[j].value) == m.value {
        assert IsEqualOf(ms, ns[j]);
      }
    }
    NormalFormIsSorted(ms);
    NormalFormIsSorted(ns);
    SameArranged(NormalForm(ms), NormalForm(ns));
  }

  // ---- and when they do not ----

  /** The array or object with one part replaced by an equal one. */
  lemma ReplacedElem(xs: seq<Json>, i: nat, w: Json)
    requires JsValue(Arr(xs)) && i < |xs| && JsValue(w) && Equal(xs[i], w)
    ensures JsValue(Arr(xs[i := w])) && Equal(Arr(xs), Arr(xs[i := w]))
  {
    forall k | 0 <= k < |xs| ensures Equal(xs[k], xs[i := w][k]) {
      JsValuesAreValid(xs[k]);
      EqualIsReflexive(xs[k]);
    }
  }

  lemma SameKeysSameOrder(ms: seq<Member>, ns: seq<Member>)
    requires DistinctKeys(ms) && InPropertyOrder(ms)
    requires |ms| == |ns| && forall i | 0 <= i < |ms| :: ms[i].key == ns[i].key
    ensures DistinctKeys(ns) && InPropertyOrder(ns)
  {
  }

  lemma ReplacedValue(ms: seq<Member>, i: nat, w: Json)
    requires JsValue(Obj(ms)) && i < |ms| && JsValue(w) && Equal(ms[i].value, w)
    ensures var ns := ms[i := Member(ms[i].key, w)];
      JsValue(Obj(ns)) && Equal(Obj(ms), Obj(ns))
  {
    var ns := ms[i := Member(ms[i].key, w)];
    SameKeysSameOrder(ms, ns);
    forall k | 0 <= k < |ms| ensures Equal(ms[k].value, ns[k].value) {
      JsValuesAreValid(ms[k].value);
      EqualIsReflexive(ms[k].value);
    }
    EqualFieldwise(ms, ns);
  }

  lemma SwapKeepsOrder(ms: seq<Member>, i: nat, j: nat)
    requires DistinctKeys(ms) && InPropertyOrder(ms)
    requires i < j < |ms| && !IsIndex(ms[i].key) && !IsIndex(ms[j].key)
    ensures DistinctKeys(ms[i := ms[j]][j := ms[i]]) && InPropertyOrder(ms[i := ms[j]][j := ms[i]])
  {
  }

  lemma SwapIsEqual(ms: seq<Member>, i: nat, j: nat)
    requires i < j < |ms| && forall k | 0 <= k < |ms| :: Equal(ms[k].value, ms[k].value)
    ensures Equal(Obj(ms), Obj(ms[i := ms[j]][j := ms[i]]))
  {
    var ns := ms[i := ms[j]][j := ms[i]];
    forall k | 0 <= k < |ms| ensures HasEqualIn(ms[k], ns) && IsEqualOf(ms, ns[k]) {
      var l := if k == i then j else if k == j then i else k;
      assert ns[l] == ms[k] && ms[l] == ns[k];
    }
  }

  /** Two members with non-index keys can change places. */
  lemma Swapped(ms: seq<Member>, i: nat, j: nat)
    requires JsValue(Obj(ms)) && i < j < |ms| && !IsIndex(ms[i].key) && !IsIndex(ms[j].key)
    ensures var ns := ms[i := ms[j]][j := ms[i]];
      JsValue(Obj(ns)) && Equal(Obj(ms), Obj(ns)) && ns != ms
  {
    forall k | 0 <= k < |ms| ensures Equal(ms[k].value, ms[k].value) {
      JsValuesAreValid(ms[k].value);
      EqualIsReflexive(ms[k].value);
    }
    SwapKeepsOrder(ms, i, j);
    SwapIsEqual(ms, i, j);
    var ns := ms[i := ms[j]][j := ms[i]];
    assert ns[i].key != ms[i].key;
  }

  lemma {:induction false} LooseHasTwin(v: Json) returns (w: Json)
    requires JsValue(v) && !Rigid(v)
    ensures JsValue(w) && Equal(v, w) && w != v
    decreases v
  {
    match v
    case Arr(xs) =>
      var i :| 0 <= i < |xs| && !Rigid(xs[i]);
      var x := LooseHasTwin(xs[i]);
      ReplacedElem(xs, i, x);
      w := Arr(xs[i := x]);
      assert w.elems[i] != xs[i];
    case Obj(ms) =>
      if AtMostOneName(ms) {
        var i :| 0 <= i < |ms| && !Rigid(ms[i].value);
        var x := LooseHasTwin(ms[i].value);
        ReplacedValue(ms, i, x);
        w := Obj(ms[i := Member(ms[i].key, x)]);
        assert w.members[i] != ms[i];
      } else {
        var i, j :| 0 <= i < j < |ms| && !IsIndex(ms[i].key) && !IsIndex(ms[j].key);
        Swapped(ms, i, j);
        w := Obj(ms[i := ms[j]][j := ms[i]]);
      }
  }

  /** Normal forms tell members apart. */
  lemma NormalFormShows(ms: seq<Member>, ns: seq<Member>, i: nat)
    requires DistinctKeys(ms) && i < |ms| == |ns| && ns[i].key == ms[i].key
    requires NormalForm(ms) == NormalForm(ns)
    ensures Normalize(ms[i].value) == Normalize(ns[i].value)
  {
    var a, b := Member(ms[i].key, Normalize(ms[i].value)), Member(ns[i].key, Normalize(ns[i].value));
    NormalFormMembers(ms, a);
    NormalFormMembers(ns, b);
    assert NormalOf(ms, a) && NormalOf(ns, b);
    NormalFormMembers(ms, b);
    var k :| 0 <= k < |ms| && ms[k].key == b.key && Normalize(ms[k].value) == b.value;
  }

  lemma {:induction false} UnsteadyHasRival(v: Json) returns (w: Json)
    requires JsValue(v) && !Steady(v)
    ensures JsValue(w) && Equal(v, w) && Normalize(w) != Normalize(v)
    decreases v
  {
    match v
    case Arr(xs) =>
      var i :| 0 <= i < |xs| && !Steady(xs[i]);
      var x := UnsteadyHasRival(xs[i]);
      ReplacedElem(xs, i, x);
      w := Arr(xs[i := x]);
      assert NormalElems(xs)[i] != NormalElems(w.elems)[i];
    case Obj(ms) =>
      if HasKey(ms, "constructor") {
        w := LooseHasTwin(v);
        EqualHasSameKeys(ms, w.members, "constructor");
      } else {
        var i :| 0 <= i < |ms| && !Steady(ms[i].value);
        var x := UnsteadyHasRival(ms[i].value);
        ReplacedValue(ms, i, x);
        var ns := ms[i := Member(ms[i].key, x)];
        w := Obj(ns);
        EqualHasSameKeys(ms, ns, "constructor");
        if NormalForm(ms) == NormalForm(ns) {
          NormalFormShows(ms, ns, i);
          assert false;
        }
      }
  }

  /** Normalization is canonical for exactly the steady values: such a value and everything
      equal to it normalize to one tree. Values without a "constructor" key are steady. */
  lemma NormalizesAlikeIff(v: Json)
    requires JsValue(v)
    ensures Steady(v) <==> forall w | JsValue(w) && Equal(v, w) :: Normalize(w) == Normalize(v)
    ensures NoConstructor(v) ==> Steady(v)
  {
    if Steady(v) {
      forall w | JsValue(w) && Equal(v, w) ensures Normalize(w) == Normalize(v) {
        SteadyNormalizesAlike(v, w);
      }
    } else {
      var w := UnsteadyHasRival(v);
    }
    if NoConstructor(v) {
      NoConstructorIsSteady(v);
    }
  }

  /** The canonical texts of steady values coincide exactly when the values are equal. */
  lemma CanonicalJsonIffEqual(a: Json, b: Json)
    requires JsValue(a) && JsValue(b) && Steady(a)
    ensures Print(Normalize(a)) == Print(Normalize(b)) <==> Equal(a, b)
  {
    if Equal(a, b) {
      SteadyNormalizesAlike(a, b);
    }
    if Print(Normalize(a)) == Print(Normalize(b)) {
      PrintIsInjective(Normalize(a), Normalize(b));
      SameNormalIsEqual(a, b);
    }
  }

  /** A pair on which it fails: the same two members in two orders. */
  lemma ConstructorKeyDefeatsSorting()
    ensures var c, a := Member("constructor", Null), Member("a", Null);
      && JsValue(Obj([c, a])) && JsValue(Obj([a, c])) && Equal(Obj([c, a]), Obj([a, c]))
      && Normalize(Obj([c, a])) != Normalize(Obj([a, c]))
  {
    var c, a := Member("constructor", Null), Member("a", Null);
    var ms := [c, a];
    assert !IsDigit("constructor"[0]) && !IsDigit("a"[0]);
    assert "constructor"[0] != "a"[0];
    Swapped(ms, 0, 1);
    assert ms[0 := ms[1]][1 := ms[0]] == [a, c];
    assert HasKey(ms, "constructor") && HasKey([a, c], "constructor") by {
      assert ms[0].key == "constructor" && [a, c][1].key == "constructor";
    }
  }
}
