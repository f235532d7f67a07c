/** Sorting the members of an object by key, under any strict total order on keys. */
module Sorting {
  import opened Json

  type Order = (string, string) -> bool

  ghost predicate StrictTotal(less: Order) {
    && (forall a :: !less(a, a))
    && (forall a, b, c :: less(a, b) && less(b, c) ==> less(a, c))
    && (forall a, b :: less(a, b) || a == b || less(b, a))
  }

  predicate DistinctKeys(ms: seq<Member>) {
    forall i, j | 0 <= i < j < |ms| :: ms[i].key != ms[j].key
  }

  predicate Ascending(ms: seq<Member>, less: Order) {
    forall i, j | 0 <= i < j < |ms| :: less(ms[i].key, ms[j].key)
  }

  function Insert(m: Member, ms: seq<Member>, less: Order): (r: seq<Member>)
    ensures |r| == |ms| + 1 && multiset(r) == multiset(ms) + multiset{m}
  {
    if ms == [] then [m]
    else if less(ms[0].key, m.key) then
      assert ms == [ms[0]] + ms[1..];
      [ms[0]] + Insert(m, ms[1..], less)
    else [m] + ms
  }

  function Sort(ms: seq<Member>, less: Order): (r: seq<Member>)
    ensures |r| == |ms| && multiset(r) == multiset(ms)
  {
    if ms == [] then []
    else
      assert ms == [ms[0]] + ms[1..];
      Insert(ms[0], Sort(ms[1..], less), less)
  }

  lemma InMultiset<T>(a: seq<T>, b: seq<T>, i: nat) returns (j: nat)
    requires multiset(a) == multiset(b) && i < |a|
    ensures j < |b| && b[j] == a[i]
  {
    assert a[i] in multiset(a);
    assert a[i] in multiset(b);
    j :| 0 <= j < |b| && b[j] == a[i];
  }

  lemma SortKeeps(ms: seq<Member>, less: Order, m: Member)
    ensures m in Sort(ms, less) <==> m in ms
  {
    assert m in Sort(ms, less) <==> m in multiset(Sort(ms, less));
    assert m in ms <==> m in multiset(ms);
  }

  lemma {:induction false} InsertAscends(m: Member, ms: seq<Member>, less: Order)
    requires StrictTotal(less)
    requires Ascending(ms, less) && forall i | 0 <= i < |ms| :: ms[i].key != m.key
    ensures Ascending(Insert(m, ms, less), less)
    decreases |ms|
  {
    var r := Insert(m, ms, less);
    if ms != [] && less(ms[0].key, m.key) {
      var tail := ms[1..];
      assert forall i | 0 <= i < |tail| :: tail[i] == ms[i + 1];
      InsertAscends(m, tail, less);
      forall j | 0 < j < |r| ensures less(r[0].key, r[j].key) {
        assert r[1..] == Insert(m, tail, less);
        assert r[j] in multiset(r[1..]);
        assert r[j] == m || r[j] in tail;
      }
    } else if ms != [] {
      forall j | 0 < j < |r| ensures less(r[0].key, r[j].key) {
        assert less(m.key, ms[0].key);
      }
    }
  }

  lemma {:induction false} SortAscends(ms: seq<Member>, less: Order)
    requires StrictTotal(less) && DistinctKeys(ms)
    ensures Ascending(Sort(ms, less), less)
    decreases |ms|
  {
    if ms != [] {
      var tail := Sort(ms[1..], less);
      SortAscends(ms[1..], less);
      forall i | 0 <= i < |tail| ensures tail[i].key != ms[0].key {
        var j := InMultiset(tail, ms[1..], i);
        assert tail[i] == ms[j + 1];
      }
      InsertAscends(ms[0], tail, less);
    }
  }

  lemma TailOfAscending(p: seq<Member>, less: Order)
    requires StrictTotal(less) && Ascending(p, less) && p != []
    ensures Ascending(p[1..], less) && forall m :: m in p[1..] <==> m in p && m != p[0]
  {
    forall i | 0 < i < |p| ensures p[i] != p[0] {
      assert less(p[0].key, p[i].key);
    }
  }

  lemma SameHead(p: seq<Member>, q: seq<Member>, less: Order)
    requires StrictTotal(less) && Ascending(p, less) && Ascending(q, less)
    requires p != [] && q != [] && p[0] in q && q[0] in p
    ensures p[0] == q[0]
  {
    var j :| 0 <= j < |q| && q[j] == p[0];
    var i :| 0 <= i < |p| && p[i] == q[0];
    assert i > 0 ==> less(p[0].key, p[i].key);
  }

  /** Two ascending lists with the same elements are the same list. */
  lemma {:induction false} AscendingIsUnique(p: seq<Member>, q: seq<Member>, less: Order)
    requires StrictTotal(less) && Ascending(p, less) && Ascending(q, less)
    requires forall m :: m in p <==> m in q
    ensures p == q
    decreases |p|
  {
    if p == [] {
      assert multiset(q) == multiset{} by {
        assert forall m :: m in multiset(q) ==> m in p;
      }
      assert |multiset(q)| == 0;
    } else {
      assert p[0] in q;
      assert q[0] in p;
      SameHead(p, q, less);
      TailOfAscending(p, less);
      TailOfAscending(q, less);
      AscendingIsUnique(p[1..], q[1..], less);
      assert p == [p[0]] + p[1..] && q == [q[0]] + q[1..];
    }
  }

  lemma AscendingIsDistinct(p: seq<Member>, less: Order)
    requires StrictTotal(less) && Ascending(p, less)
    ensures DistinctKeys(p)
  {
    forall i, j | 0 <= i < j < |p| ensures p[i].key != p[j].key {
      assert less(p[i].key, p[j].key);
    }
  }

  lemma SortOfAscending(p: seq<Member>, less: Order)
    requires StrictTotal(less) && Ascending(p, less)
    ensures Sort(p, less) == p
  {
    AscendingIsDistinct(p, less);
    SortAscends(p, less);
    forall m ensures m in Sort(p, less) <==> m in p {
      SortKeeps(p, less, m);
    }
    AscendingIsUnique(Sort(p, less), p, less);
  }
}
