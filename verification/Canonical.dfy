/** The canonical text: json.dumps with sort_keys=True and compact separators. Two values
    have the same canonical text exactly when they are the same up to the order of keys. */
module Canonical {
  import opened Text
  import opened Json
  import opened Sorting
  import Grammar

  // ---- values a Python dict can hold: no key twice ----

  predicate Valid(v: Json)
    decreases v
  {
    match v
    case Arr(xs) => forall i | 0 <= i < |xs| :: Valid(xs[i])
    case Obj(ms) => DistinctKeys(ms) && forall i | 0 <= i < |ms| :: Valid(ms[i].value)
    case _ => true
  }

  type Value = v: Json | Valid(v) witness Null

  /** The same value up to the order of keys: arrays element by element, objects as
      dictionaries, whatever order their keys were inserted in. */
  ghost predicate Equal(a: Json, b: Json)
    decreases a
  {
    match (a, b)
    case (Arr(xs), Arr(ys)) => |xs| == |ys| && forall i | 0 <= i < |xs| :: Equal(xs[i], ys[i])
    case (Obj(ms), Obj(ns)) =>
      && (forall i | 0 <= i < |ms| :: HasEqualIn(ms[i], ns))
      && (forall j | 0 <= j < |ns| :: IsEqualOf(ms, ns[j]))
    case _ => a == b
  }

  ghost predicate HasEqualIn(m: Member, ns: seq<Member>)
    decreases m
  {
    exists j | 0 <= j < |ns| :: ns[j].key == m.key && Equal(m.value, ns[j].value)
  }

  ghost predicate IsEqualOf(ms: seq<Member>, n: Member)
    decreases ms
  {
    exists i | 0 <= i < |ms| :: ms[i].key == n.key && Equal(ms[i].value, n.value)
  }

  // ---- printing with sorted keys ----

  lemma LessIsStrictTotal()
    ensures StrictTotal(Less)
  {
    forall a ensures !Less(a, a) {
      LessIsIrreflexive(a);
    }
    forall a, b, c | Less(a, b) && Less(b, c) ensures Less(a, c) {
      LessIsTransitive(a, b, c);
    }
    forall a, b ensures Less(a, b) || a == b || Less(b, a) {
      LessIsTotal(a, b);
    }
  }

  lemma SortedAscends(ms: seq<Member>)
    requires DistinctKeys(ms)
    ensures Ascending(Sort(ms, Less), Less)
  {
    LessIsStrictTotal();
    SortAscends(ms, Less);
  }

  lemma SameSorted(p: seq<Member>, q: seq<Member>)
    requires Ascending(p, Less) && Ascending(q, Less) && forall m :: m in p <==> m in q
    ensures p == q
  {
    LessIsStrictTotal();
    AscendingIsUnique(p, q, Less);
  }

  lemma SortedStays(p: seq<Member>)
    requires Ascending(p, Less)
    ensures DistinctKeys(p) && Sort(p, Less) == p
  {
    LessIsStrictTotal();
    AscendingIsDistinct(p, Less);
    SortOfAscending(p, Less);
  }

  /** The value json.dumps prints: members of every object in key order. */
  function Ordered(v: Json): Json
    decreases v, 1
  {
    match v
    case Arr(xs) => Arr(OrderedElems(xs))
    case Obj(ms) => Obj(Sort(OrderedMembers(ms), Less))
    case _ => v
  }

  function OrderedElems(xs: seq<Json>): (r: seq<Json>)
    ensures |r| == |xs| && forall i | 0 <= i < |xs| :: r[i] == Ordered(xs[i])
    decreases xs, 0
  {
    if xs == [] then [] else [Ordered(xs[0])] + OrderedElems(xs[1..])
  }

  function OrderedMembers(ms: seq<Member>): (r: seq<Member>)
    ensures |r| == |ms|
    ensures forall i | 0 <= i < |ms| :: r[i].key == ms[i].key && r[i].value == Ordered(ms[i].value)
    decreases ms, 0
  {
    if ms == [] then []
    else [Member(ms[0].key, Ordered(ms[0].value))] + OrderedMembers(ms[1..])
  }

  function CanonicalJson(v: Json): string {
    Print(Ordered(v))
  }

  ghost predicate OrdersTo(ms: seq<Member>, m: Member) {
    exists i | 0 <= i < |ms| :: ms[i].key == m.key && Ordered(ms[i].value) == m.value
  }

  /** The printed members of an object are its own, with ordered values. */
  lemma SortedMembers(ms: seq<Member>, m: Member)
    ensures m in Sort(OrderedMembers(ms), Less) <==> OrdersTo(ms, m)
  {
    var o := OrderedMembers(ms);
    SortKeeps(o, Less, m);
    if m in o {
      var i :| 0 <= i < |o| && o[i] == m;
      assert ms[i].key == m.key;
    }
    if i :| 0 <= i < |ms| && ms[i].key == m.key && Ordered(ms[i].value) == m.value {
      assert o[i] == m;
    }
  }

  // ---- the canonical text is the value up to key order ----

  lemma {:induction false} EqualIffSameOrder(a: Json, b: Json)
    requires Valid(a) && Valid(b)
    ensures Ordered(a) == Ordered(b) <==> Equal(a, b)
    decreases a, 2
  {
    match (a, b)
    case (Arr(xs), Arr(ys)) =>
      if |xs| == |ys| {
        forall i | 0 <= i < |xs| ensures Ordered(xs[i]) == Ordered(ys[i]) <==> Equal(xs[i], ys[i]) {
          EqualIffSameOrder(xs[i], ys[i]);
        }
        assert Equal(a, b) ==> OrderedElems(xs) == OrderedElems(ys);
        assert OrderedElems(xs) == OrderedElems(ys) ==>
          forall i | 0 <= i < |xs| :: OrderedElems(xs)[i] == OrderedElems(ys)[i];
      }
    case (Obj(ms), Obj(ns)) => EqualIffSameMembers(ms, ns);
    case _ =>
  }

  lemma {:induction false} EqualIffSameMembers(ms: seq<Member>, ns: seq<Member>)
    requires Valid(Obj(ms)) && Valid(Obj(ns))
    ensures Sort(OrderedMembers(ms), Less) == Sort(OrderedMembers(ns), Less) <==> Equal(Obj(ms), Obj(ns))
    decreases ms, 1
  {
    var p, q := Sort(OrderedMembers(ms), Less), Sort(OrderedMembers(ns), Less);
    if p == q {
      forall i | 0 <= i < |ms| ensures HasEqualIn(ms[i], ns) {
        SharedMember(ms, ns, i);
      }
      forall j | 0 <= j < |ns| ensures IsEqualOf(ms, ns[j]) {
        SharedMemberBack(ms, ns, j);
      }
    }
    if Equal(Obj(ms), Obj(ns)) {
      SortedAscends(OrderedMembers(ms));
      SortedAscends(OrderedMembers(ns));
      forall m ensures m in p <==> m in q {
        SortedMembers(ms, m);
        SortedMembers(ns, m);
        if OrdersTo(ms, m) {
          EqualMember(ms, ns, m);
        } else if OrdersTo(ns, m) {
          EqualMemberBack(ms, ns, m);
          assert false;
        }
      }
      SameSorted(p, q);
    }
  }

  lemma {:induction false} SharedMember(ms: seq<Member>, ns: seq<Member>, i: nat)
    requires Valid(Obj(ms)) && Valid(Obj(ns)) && i < |ms|
    requires Sort(OrderedMembers(ms), Less) == Sort(OrderedMembers(ns), Less)
    ensures HasEqualIn(ms[i], ns)
    decreases ms, 0
  {
    var m := Member(ms[i].key, Ordered(ms[i].value));
    SortedMembers(ms, m);
    SortedMembers(ns, m);
    var j :| 0 <= j < |ns| && ns[j].key == m.key && Ordered(ns[j].value) == m.value;
    EqualIffSameOrder(ms[i].value, ns[j].value);
  }

  lemma {:induction false} SharedMemberBack(ms: seq<Member>, ns: seq<Member>, j: nat)
    requires Valid(Obj(ms)) && Valid(Obj(ns)) && j < |ns|
    requires Sort(OrderedMembers(ms), Less) == Sort(OrderedMembers(ns), Less)
    ensures IsEqualOf(ms, ns[j])
    decreases ms, 0
  {
    var m := Member(ns[j].key, Ordered(ns[j].value));
    SortedMembers(ms, m);
    SortedMembers(ns, m);
    var i :| 0 <= i < |ms| && ms[i].key == m.key && Ordered(ms[i].value) == m.value;
    EqualIffSameOrder(ms[i].value, ns[j].value);
  }

  lemma {:induction false} EqualMember(ms: seq<Member>, ns: seq<Member>, m: Member)
    requires Valid(Obj(ms)) && Valid(Obj(ns))
    requires forall i | 0 <= i < |ms| :: HasEqualIn(ms[i], ns)
    requires OrdersTo(ms, m)
    ensures OrdersTo(ns, m)
    decreases ms, 0
  {
    var i :| 0 <= i < |ms| && ms[i].key == m.key && Ordered(ms[i].value) == m.value;
    assert HasEqualIn(ms[i], ns);
    var j :| 0 <= j < |ns| && ns[j].key == ms[i].key && Equal(ms[i].value, ns[j].value);
    EqualIffSameOrder(ms[i].value, ns[j].value);
  }

  lemma {:induction false} EqualMemberBack(ms: seq<Member>, ns: seq<Member>, m: Member)
    requires Valid(Obj(ms)) && Valid(Obj(ns))
    requires forall j | 0 <= j < |ns| :: IsEqualOf(ms, ns[j])
    requires OrdersTo(ns, m)
    ensures OrdersTo(ms, m)
    decreases ms, 0
  {
    var j :| 0 <= j < |ns| && ns[j].key == m.key && Ordered(ns[j].value) == m.value;
    assert IsEqualOf(ms, ns[j]);
    var i :| 0 <= i < |ms| && ms[i].key == ns[j].key && Equal(ms[i].value, ns[j].value);
    EqualIffSameOrder(ms[i].value, ns[j].value);
  }

  /** Canonical texts coincide exactly for equal values: the encoding is deterministic up
      to key order and injective otherwise. */
  lemma CanonicalIffEqual(a: Json, b: Json)
    requires Valid(a) && Valid(b)
    ensures CanonicalJson(a) == CanonicalJson(b) <==> Equal(a, b)
  {
    EqualIffSameOrder(a, b);
    if CanonicalJson(a) == CanonicalJson(b) {
      PrintIsInjective(Ordered(a), Ordered(b));
    }
  }

  /** The keys of every object, at every depth, come in dictionary order. */
  ghost predicate KeysInOrder(v: Json)
    decreases v
  {
    match v
    case Arr(xs) => forall i | 0 <= i < |xs| :: KeysInOrder(xs[i])
    case Obj(ms) => MembersInOrder(ms) && forall i | 0 <= i < |ms| :: KeysInOrder(ms[i].value)
    case _ => true
  }

  ghost predicate MembersInOrder(ms: seq<Member>) {
    forall i, j | 0 <= i < j < |ms| :: Precedes(ms[i].key, ms[j].key)
  }

  lemma AscendingIsInOrder(ms: seq<Member>)
    ensures MembersInOrder(ms) <==> Ascending(ms, Less)
  {
    forall i, j | 0 <= i < j < |ms| ensures Less(ms[i].key, ms[j].key) <==> Precedes(ms[i].key, ms[j].key) {
      LessIsPrecedes(ms[i].key, ms[j].key);
    }
  }

  lemma {:induction false} OrderedIsInOrder(v: Json)
    requires Valid(v)
    ensures KeysInOrder(Ordered(v))
    decreases v
  {
    match v
    case Arr(xs) =>
      forall i | 0 <= i < |xs| ensures KeysInOrder(Ordered(xs[i])) {
        OrderedIsInOrder(xs[i]);
      }
    case Obj(ms) =>
      var p := Sort(OrderedMembers(ms), Less);
      SortedAscends(OrderedMembers(ms));
      AscendingIsInOrder(p);
      forall i | 0 <= i < |p| ensures KeysInOrder(p[i].value) {
        SortedMembers(ms, p[i]);
        var k :| 0 <= k < |ms| && ms[k].key == p[i].key && Ordered(ms[k].value) == p[i].value;
        OrderedIsInOrder(ms[k].value);
      }
    case _ =>
  }

  lemma {:induction false} InOrderIsFixed(v: Json)
    requires KeysInOrder(v)
    ensures Ordered(v) == v
    decreases v
  {
    match v
    case Arr(xs) =>
      forall i | 0 <= i < |xs| ensures Ordered(xs[i]) == xs[i] {
        InOrderIsFixed(xs[i]);
      }
      assert OrderedElems(xs) == xs;
    case Obj(ms) =>
      forall i | 0 <= i < |ms| ensures Ordered(ms[i].value) == ms[i].value {
        InOrderIsFixed(ms[i].value);
      }
      AlreadyOrdered(ms);
      AscendingIsInOrder(ms);
      SortedStays(ms);
    case _ =>
  }

  /** A canonical text is a text of the value itself with the keys of every object in dictionary
      order by code point, and reading it back gives that. */
  lemma CanonicalReadsBack(v: Json)
    requires Valid(v)
    ensures Parse(CanonicalJson(v)) == Some(Ordered(v))
    ensures Grammar.IsText(CanonicalJson(v), Ordered(v))
    ensures Equal(v, Ordered(v)) && Valid(Ordered(v)) && KeysInOrder(Ordered(v))
  {
    RoundTrip(Ordered(v));
    Grammar.PrintIsText(Ordered(v));
    OrderedIsFixed(v);
    EqualIffSameOrder(v, Ordered(v));
    OrderedIsInOrder(v);
  }

  /** What the canonical text is, without the sorting that makes it: the compact text of the one
      value that equals v and has its keys in order. */
  lemma CanonicalIsInOrder(v: Json, w: Json)
    requires Valid(v) && Valid(w) && KeysInOrder(w)
    ensures CanonicalJson(v) == Print(w) <==> Equal(v, w)
  {
    InOrderIsFixed(w);
    CanonicalIffEqual(v, w);
  }

  lemma {:induction false} OrderedIsFixed(v: Json)
    requires Valid(v)
    ensures Valid(Ordered(v)) && Ordered(Ordered(v)) == Ordered(v)
    decreases v
  {
    match v
    case Arr(xs) =>
      forall i | 0 <= i < |xs| ensures Valid(Ordered(xs[i])) && Ordered(Ordered(xs[i])) == Ordered(xs[i]) {
        OrderedIsFixed(xs[i]);
      }
      assert OrderedElems(OrderedElems(xs)) == OrderedElems(xs);
    case Obj(ms) =>
      forall i | 0 <= i < |ms|
        ensures Valid(Ordered(ms[i].value)) && Ordered(Ordered(ms[i].value)) == Ordered(ms[i].value)
      {
        OrderedIsFixed(ms[i].value);
      }
      SortedIsFixed(ms);
    case _ =>
  }

  lemma SortedIsFixed(ms: seq<Member>)
    requires DistinctKeys(ms)
    requires forall i | 0 <= i < |ms| ::
      Valid(Ordered(ms[i].value)) && Ordered(Ordered(ms[i].value)) == Ordered(ms[i].value)
    ensures Valid(Obj(Sort(OrderedMembers(ms), Less)))
    ensures Sort(OrderedMembers(Sort(OrderedMembers(ms), Less)), Less) == Sort(OrderedMembers(ms), Less)
  {
    var p := Sort(OrderedMembers(ms), Less);
    SortedAscends(OrderedMembers(ms));
    forall i | 0 <= i < |p| ensures Valid(p[i].value) && Ordered(p[i].value) == p[i].value {
      SortedMembers(ms, p[i]);
    }
    SortedStays(p);
    AlreadyOrdered(p);
  }

  lemma AlreadyOrdered(p: seq<Member>)
    requires forall i | 0 <= i < |p| :: Ordered(p[i].value) == p[i].value
    ensures OrderedMembers(p) == p
  {
    forall i | 0 <= i < |p| ensures OrderedMembers(p)[i] == p[i] {
    }
  }

  /** Objects listing the same keys are equal exactly when they agree key by key. */
  lemma EqualFieldwise(ms: seq<Member>, ns: seq<Member>)
    requires DistinctKeys(ms) && |ms| == |ns| && forall i | 0 <= i < |ms| :: ms[i].key == ns[i].key
    ensures Equal(Obj(ms), Obj(ns)) <==> forall i | 0 <= i < |ms| :: Equal(ms[i].value, ns[i].value)
  {
    if Equal(Obj(ms), Obj(ns)) {
      forall i | 0 <= i < |ms| ensures Equal(ms[i].value, ns[i].value) {
        assert HasEqualIn(ms[i], ns);
        var j :| 0 <= j < |ns| && ns[j].key == ms[i].key && Equal(ms[i].value, ns[j].value);
        assert ms[j].key == ms[i].key;
      }
    }
    if forall i | 0 <= i < |ms| :: Equal(ms[i].value, ns[i].value) {
      forall i | 0 <= i < |ms| ensures HasEqualIn(ms[i], ns) && IsEqualOf(ms, ns[i]) {
      }
    }
  }

  lemma {:induction false} EqualIsReflexive(v: Json)
    requires Valid(v)
    ensures Equal(v, v)
  {
    EqualIffSameOrder(v, v);
  }

  lemma EqualIsEquivalence(a: Json, b: Json, c: Json)
    requires Valid(a) && Valid(b) && Valid(c) && Equal(a, b)
    ensures Equal(b, a)
    ensures Equal(b, c) ==> Equal(a, c)
  {
    EqualIffSameOrder(a, b);
    EqualIffSameOrder(b, a);
    EqualIffSameOrder(b, c);
    EqualIffSameOrder(a, c);
  }

  // ---- dictionaries with a fixed list of keys ----

  predicate Distinct(keys: seq<string>) {
    forall i, j | 0 <= i < j < |keys| :: keys[i] != keys[j]
  }

  function Record(keys: seq<string>, values: seq<Value>): (v: Json)
    requires |keys| == |values|
    ensures Distinct(keys) ==> Valid(v)
  {
    Obj(seq(|keys|, i requires 0 <= i < |keys| => Member(keys[i], values[i])))
  }

  lemma {:induction false} LookupInRecord(keys: seq<string>, values: seq<Value>, i: nat)
    requires |keys| == |values| && Distinct(keys) && i < |keys|
    ensures Lookup(Record(keys, values).members, keys[i]) == Some(values[i])
    decreases |keys|
  {
    var ms := Record(keys, values).members;
    if i > 0 {
      assert ms[0].key == keys[0] != keys[i];
      assert ms[1..] == Record(keys[1..], values[1..]).members;
      LookupInRecord(keys[1..], values[1..], i - 1);
    }
  }

  ghost predicate AllEqual(vs: seq<Value>, ws: seq<Value>) {
    |vs| == |ws| && forall i | 0 <= i < |vs| :: Equal(vs[i], ws[i])
  }

  lemma RecordBinds(keys: seq<string>, vs: seq<Value>, ws: seq<Value>)
    requires Distinct(keys) && |keys| == |vs| == |ws|
    ensures Equal(Record(keys, vs), Record(keys, ws)) <==> AllEqual(vs, ws)
  {
    var ms, ns := Record(keys, vs).members, Record(keys, ws).members;
    EqualFieldwise(ms, ns);
    assert forall i | 0 <= i < |keys| :: ms[i].value == vs[i] && ns[i].value == ws[i];
  }
}
