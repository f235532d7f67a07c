/** The sliding-window limiter: the pruned deque of one key against that key's full history
    of accepted calls. Times are reals, and `now` does not decrease from call to call. */
module Limiter {
  import opened Text

  /** An accepted call of one key, with the limit it was accepted under. */
  datatype Accept = Accept(at: real, limit: int)

  /** Half-open: [lo, hi) or (lo, hi]. */
  datatype Interval = Interval(lo: real, hi: real, closedLeft: bool)

  predicate In(t: real, iv: Interval) {
    if iv.closedLeft then iv.lo <= t < iv.hi else iv.lo < t <= iv.hi
  }

  function Count(h: seq<Accept>, iv: Interval): nat {
    if h == [] then 0 else Count(h[..|h| - 1], iv) + if In(h[|h| - 1].at, iv) then 1 else 0
  }

  /** (now - window, now] */
  function Window(now: real, window: int): Interval {
    Interval(now - window as real, now, false)
  }

  /** Fewer than limit calls of the full history lie in the window that ends now. */
  predicate Admits(h: seq<Accept>, window: int, limit: int, now: real) {
    Count(h, Window(now, window)) < limit
  }

  predicate Sorted(h: seq<Accept>) {
    forall i, j | 0 <= i < j < |h| :: h[i].at <= h[j].at
  }

  /** Every accept was admitted on the history before it. */
  predicate Earned(h: seq<Accept>, window: int) {
    Sorted(h) && forall i | 0 <= i < |h| :: Admits(h[..i], window, h[i].limit, h[i].at)
  }

  // ---- counting ----

  lemma {:induction false} CountSuffix(h: seq<Accept>, iv: Interval, n: nat)
    requires n <= |h|
    requires forall i | 0 <= i < n :: !In(h[i].at, iv)
    requires forall i | n <= i < |h| :: In(h[i].at, iv)
    ensures Count(h, iv) == |h| - n
    decreases |h|
  {
    if h != [] {
      CountSuffix(h[..|h| - 1], iv, if n == |h| then n - 1 else n);
    }
  }

  lemma {:induction false} CountWithin(h: seq<Accept>, iv: Interval, jv: Interval)
    requires forall i | 0 <= i < |h| && In(h[i].at, iv) :: In(h[i].at, jv)
    ensures Count(h, iv) <= Count(h, jv)
    decreases |h|
  {
    if h != [] {
      CountWithin(h[..|h| - 1], iv, jv);
    }
  }

  lemma {:induction false} CountSplits(h: seq<Accept>, iv: Interval, mid: real)
    requires iv.lo <= mid <= iv.hi
    ensures Count(h, iv) == Count(h, iv.(hi := mid)) + Count(h, iv.(lo := mid))
    decreases |h|
  {
    if h != [] {
      CountSplits(h[..|h| - 1], iv, mid);
    }
  }

  // ---- the bound ----

  ghost predicate LimitedTo(h: seq<Accept>, limit: nat) {
    forall i | 0 <= i < |h| :: h[i].limit <= limit
  }

  lemma {:induction false} OneWindow(h: seq<Accept>, window: int, limit: nat, iv: Interval)
    requires Earned(h, window) && LimitedTo(h, limit) && iv.hi <= iv.lo + window as real
    ensures Count(h, iv) <= limit
    decreases |h|
  {
    if h != [] {
      var n := |h| - 1;
      if In(h[n].at, iv) {
        assert Admits(h[..n], window, h[n].limit, h[n].at);
        CountWithin(h[..n], iv, Window(h[n].at, window));
      } else {
        EarnedPrefix(h, window, n);
        OneWindow(h[..n], window, limit, iv);
      }
    }
  }

  lemma EarnedPrefix(h: seq<Accept>, window: int, n: nat)
    requires Earned(h, window) && n <= |h|
    ensures Earned(h[..n], window)
  {
    forall i | 0 <= i < n ensures Admits(h[..n][..i], window, h[..n][i].limit, h[..n][i].at) {
      assert h[..n][..i] == h[..i];
    }
  }

  lemma Multiples(k: nat, n: nat)
    requires k > 0
    ensures k * n == n + (k - 1) * n && (k - 1) * n >= 0
  {
  }

  /** At most k * limit accepts in any half-open interval of length k * window. */
  lemma {:induction false} Bounded(h: seq<Accept>, window: int, limit: nat, iv: Interval, k: nat)
    requires Earned(h, window) && LimitedTo(h, limit) && window > 0
    requires iv.hi == iv.lo + (k * window) as real
    ensures Count(h, iv) <= k * limit
    decreases k
  {
    if k == 0 {
      CountSuffix(h, iv, |h|);
    } else {
      var mid := iv.lo + window as real;
      Multiples(k, window);
      Multiples(k, limit);
      CountSplits(h, iv, mid);
      OneWindow(h, window, limit, iv.(hi := mid));
      Bounded(h, window, limit, iv.(lo := mid), k - 1);
    }
  }

  // ---- the retry hint ----

  /** Python's int() on a float. */
  function Truncated(x: real): int {
    if x >= 0.0 then x.Floor else -(-x).Floor
  }

  function RetryAfter(window: int, now: real, oldest: real): int {
    var wait := Truncated(window as real - (now - oldest)) + 1;
    if wait > 1 then wait else 1
  }

  /** How many leading entries have left the window. */
  function Expired(h: seq<Accept>, cutoff: real): (n: nat)
    ensures n <= |h|
    ensures forall i | 0 <= i < n :: h[i].at <= cutoff
    ensures n < |h| ==> h[n].at > cutoff
  {
    if h != [] && h[0].at <= cutoff then 1 + Expired(h[1..], cutoff) else 0
  }

  /** The oldest entry still in the window that ends now. */
  function Oldest(h: seq<Accept>, now: real, window: int): Option<real> {
    var n := Expired(h, now - window as real);
    if n < |h| then Some(h[n].at) else None
  }

  /** A history on which a call at `now` is refused. */
  ghost predicate RefusedOn(h: seq<Accept>, window: int, limit: int, now: real) {
    && Earned(h, window) && (forall i | 0 <= i < |h| :: h[i].at <= now)
    && limit >= 1 && !Admits(h, window, limit, now)
  }

  lemma RefusedHasOldest(h: seq<Accept>, window: int, limit: int, now: real) returns (n: nat)
    requires RefusedOn(h, window, limit, now)
    ensures n < |h| && Oldest(h, now, window) == Some(h[n].at)
    ensures Count(h, Window(now, window)) == |h| - n >= limit
    ensures forall i | n <= i < |h| :: In(h[i].at, Window(now, window))
  {
    n := Expired(h, now - window as real);
    WindowIsSuffix(h, window, now);
  }

  lemma WindowIsSuffix(h: seq<Accept>, window: int, now: real)
    requires Sorted(h) && forall i | 0 <= i < |h| :: h[i].at <= now
    ensures var n := Expired(h, now - window as real);
      && (forall i | n <= i < |h| :: In(h[i].at, Window(now, window))) && Count(h, Window(now, window)) == |h| - n
  {
    var n := Expired(h, now - window as real);
    forall i | n <= i < |h| ensures In(h[i].at, Window(now, window)) {
      assert h[n].at <= h[i].at;
    }
    CountSuffix(h, Window(now, window), n);
  }

  /** The hint is the whole seconds until the oldest kept entry expires, plus one, and lies
      between 1 and window + 1. */
  lemma RetryIsExact(h: seq<Accept>, window: int, limit: int, now: real)
    requires RefusedOn(h, window, limit, now)
    ensures Oldest(h, now, window).Some?
    ensures var oldest := Oldest(h, now, window).value;
      var retry, left := RetryAfter(window, now, oldest), oldest + window as real - now;
      1 <= retry <= window + 1 && (retry - 1) as real <= left < retry as real
  {
    var n := RefusedHasOldest(h, window, limit, now);
  }

  /** Until that entry expires every call under the limit is refused, whatever the history
      has become by then. */
  lemma RefusedUntilExpiry(h: seq<Accept>, window: int, limit: int, now: real, later: seq<Accept>, t: real)
    requires RefusedOn(h, window, limit, now) && h <= later && now <= t
    requires Oldest(h, now, window).Some? ==> t < Oldest(h, now, window).value + window as real
    ensures !Admits(later, window, limit, t)
  {
    var n := RefusedHasOldest(h, window, limit, now);
    CountWithin(h, Window(now, window), Window(t, window));
    CountOfPrefix(h, later, Window(t, window));
  }

  lemma {:induction false} CountOfPrefix(h: seq<Accept>, later: seq<Accept>, iv: Interval)
    requires h <= later
    ensures Count(h, iv) <= Count(later, iv)
    decreases |later|
  {
    if |h| < |later| {
      CountOfPrefix(h, later[..|later| - 1], iv);
    } else {
      assert h == later;
    }
  }

  /** Waiting out the hint is enough, when no other call of the key is accepted meanwhile. */
  lemma AdmittedAfterHint(h: seq<Accept>, window: int, limit: int, now: real, t: real)
    requires RefusedOn(h, window, limit, now) && LimitedTo(h, limit)
    requires Oldest(h, now, window).Some? ==>
      t >= now + RetryAfter(window, now, Oldest(h, now, window).value) as real
    ensures Admits(h, window, limit, t)
  {
    var n := RefusedHasOldest(h, window, limit, now);
    RetryIsExact(h, window, limit, now);
    OneWindow(h, window, limit, Window(now, window));
    FewerAfter(h, window, n, t);
  }

  lemma FewerAfter(h: seq<Accept>, window: int, n: nat, t: real)
    requires Sorted(h) && n < |h| && h[n].at <= t - window as real && forall i | 0 <= i < |h| :: h[i].at <= t
    ensures Count(h, Window(t, window)) < |h| - n
  {
    CountSuffix(h, Window(t, window), Expired(h, t - window as real));
  }

  // ---- the limiter ----

  datatype Decision = Allowed | Refused(retryAfter: int) | Raised   // q[0] of an empty deque

  class SlidingWindowLimiter {
    const window: int
    var events: map<string, seq<real>>

    ghost var history: map<string, seq<Accept>>   // every accepted call, never pruned
    ghost var dropped: map<string, nat>           // entries of each history popped so far
    ghost var clock: real                         // time of the latest call

    ghost function History(key: string): seq<Accept>
      reads this
    {
      if key in history then history[key] else []
    }

    function Deque(key: string): seq<real>
      reads this
    {
      if key in events then events[key] else []
    }

    ghost function Dropped(key: string): nat
      reads this
    {
      if key in dropped then dropped[key] else 0
    }

    ghost predicate Valid()
      reads this
    {
      forall key :: KeyValid(key)
    }

    ghost predicate KeyValid(key: string)
      reads this
    {
      Tracks(Deque(key), History(key), Dropped(key), window, clock)
    }

    constructor (window: int)
      ensures Valid() && this.window == window && history == map[]
    {
      this.window := window;
      events, history, dropped := map[], map[], map[];
    }

    /** The decision is the one the full history of the key calls for; an accepted call joins
        that history; other keys keep their deques and histories. */
    method Allow(key: string, limit: int, now: real) returns (d: Decision)
      requires Valid() && now >= clock
      modifies this
      ensures Valid() && clock == now
      ensures d.Allowed? <==> Admits(old(History(key)), window, limit, now)
      ensures d.Raised? <==> limit <= 0 && Count(old(History(key)), Window(now, window)) == 0
      ensures d.Refused? ==>
        var oldest := Oldest(old(History(key)), now, window);
        oldest.Some? && d.retryAfter == RetryAfter(window, now, oldest.value)
      ensures History(key) == if d.Allowed? then old(History(key)) + [Accept(now, limit)] else old(History(key))
      ensures forall k | k != key :: Deque(k) == old(Deque(k)) && History(k) == old(History(k))
    {
      Prune(key, now);
      assert KeyValid(key);
      if |events[key]| >= limit {
        if events[key] == [] {
          d := Raised;
        } else {
          d := Refused(RetryAfter(window, now, events[key][0]));
        }
      } else {
        Append(key, limit, now);
        d := Allowed;
      }
    }

    /** The while loop: afterwards the deque of the key is exactly its window. */
    method Prune(key: string, now: real)
      requires Valid() && now >= clock
      modifies this
      ensures Valid() && clock == now && history == old(history)
      ensures key in events && forall k | k != key :: Deque(k) == old(Deque(k))
      ensures Count(History(key), Window(now, window)) == |Deque(key)|
      ensures Deque(key) != [] ==> Oldest(History(key), now, window) == Some(Deque(key)[0])
    {
      Tick(now);
      var cutoff := now - window as real;
      Touch(key);
      while events[key] != [] && events[key][0] <= cutoff
        invariant Valid() && key in events && clock == now && history == old(history)
        invariant forall k | k != key :: Deque(k) == old(Deque(k))
        decreases |events[key]|
      {
        PopLeft(key);
      }
      assert KeyValid(key);
      KeptAreInside(Deque(key), History(key), Dropped(key), now, window);
    }

    ghost method Tick(now: real)
      requires Valid() && now >= clock
      modifies this`clock
      ensures Valid() && clock == now
    {
      clock := now;
      forall k ensures KeyValid(k) {
        assert old(KeyValid(k));
        TracksLater(Deque(k), History(k), Dropped(k), window, old(clock), now);
      }
    }

    /** self._events[key], which makes an empty deque for a new key. */
    method Touch(key: string)
      requires Valid()
      modifies this`events
      ensures Valid() && key in events && forall k :: Deque(k) == old(Deque(k))
    {
      if key !in events {
        events := events[key := []];
      }
      forall k ensures KeyValid(k) {
        assert old(KeyValid(k));
      }
    }

    method PopLeft(key: string)
      requires Valid() && key in events && events[key] != [] && events[key][0] <= clock - window as real
      modifies this`events, this`dropped
      ensures Valid() && key in events && Deque(key) == old(Deque(key))[1..]
      ensures forall k | k != key :: Deque(k) == old(Deque(k))
    {
      assert KeyValid(key);
      TracksPop(events[key], History(key), Dropped(key), window, clock);
      dropped := dropped[key := Dropped(key) + 1];
      events := events[key := events[key][1..]];
      forall k ensures KeyValid(k) {
        assert old(KeyValid(k));
      }
    }

    /** q.append(now), and the history with it. */
    method Append(key: string, limit: int, now: real)
      requires Valid() && clock == now && key in events && Admits(History(key), window, limit, now)
      modifies this
      ensures Valid() && clock == now
      ensures History(key) == old(History(key)) + [Accept(now, limit)]
      ensures forall k | k != key :: Deque(k) == old(Deque(k)) && History(k) == old(History(k))
    {
      assert KeyValid(key);
      TracksAccept(Deque(key), History(key), Dropped(key), window, now, limit);
      events := events[key := events[key] + [now]];
      history := history[key := History(key) + [Accept(now, limit)]];
      forall k ensures KeyValid(k) {
        assert old(KeyValid(k));
      }
    }
  }

  /** q holds the times of h from position n on; those before it are at or before the cutoff. */
  ghost predicate Pruned(q: seq<real>, h: seq<Accept>, n: nat, cutoff: real) {
    && n <= |h| && |q| == |h| - n
    && (forall i | 0 <= i < |q| :: q[i] == h[n + i].at)
    && (forall i | 0 <= i < n :: h[i].at <= cutoff)
  }

  /** One key's deque against its history, the latest call of the limiter being at `clock`. */
  ghost predicate Tracks(q: seq<real>, h: seq<Accept>, n: nat, window: int, clock: real) {
    && Pruned(q, h, n, clock - window as real) && Earned(h, window)
    && forall i | 0 <= i < |h| :: h[i].at <= clock
  }

  lemma TracksLater(q: seq<real>, h: seq<Accept>, n: nat, window: int, clock: real, now: real)
    requires Tracks(q, h, n, window, clock) && clock <= now
    ensures Tracks(q, h, n, window, now)
  {
  }

  lemma TracksPop(q: seq<real>, h: seq<Accept>, n: nat, window: int, clock: real)
    requires Tracks(q, h, n, window, clock) && q != [] && q[0] <= clock - window as real
    ensures Tracks(q[1..], h, n + 1, window, clock)
  {
    assert q[0] == h[n].at;
  }

  lemma TracksAccept(q: seq<real>, h: seq<Accept>, n: nat, window: int, now: real, limit: int)
    requires Tracks(q, h, n, window, now) && Admits(h, window, limit, now)
    ensures Tracks(q + [now], h + [Accept(now, limit)], n, window, now)
  {
    AcceptKeepsEarned(h, window, limit, now);
  }

  lemma KeptAreInside(q: seq<real>, h: seq<Accept>, n: nat, now: real, window: int)
    requires Pruned(q, h, n, now - window as real) && Sorted(h)
    requires forall i | 0 <= i < |h| :: h[i].at <= now
    requires q == [] || q[0] > now - window as real
    ensures Count(h, Window(now, window)) == |q|
    ensures q != [] ==> Oldest(h, now, window) == Some(q[0])
  {
    CountSuffix(h, Window(now, window), n);
  }

  lemma AcceptKeepsEarned(h: seq<Accept>, window: int, limit: int, now: real)
    requires Earned(h, window) && (forall i | 0 <= i < |h| :: h[i].at <= now) && Admits(h, window, limit, now)
    ensures Earned(h + [Accept(now, limit)], window)
  {
    var g := h + [Accept(now, limit)];
    forall i | 0 <= i < |g| ensures Admits(g[..i], window, g[i].limit, g[i].at) {
      assert g[..i] == h[..i];
      assert i == |h| ==> h[..i] == h;
    }
  }

  // ---- keys ----

  function RateKey(bucket: string, ip: string): string {
    bucket + ":" + ip
  }

  lemma ColonEndsBucket(bucket: string, ip: string)
    requires ':' !in bucket
    ensures var key := RateKey(bucket, ip);
      && |bucket| < |key| && key[|bucket|] == ':' && (forall i | 0 <= i < |bucket| :: key[i] != ':')
      && key[..|bucket|] == bucket && key[|bucket| + 1..] == ip
  {
  }

  /** Buckets without a colon never share a key, whatever the address header holds. */
  lemma KeysAreSeparate(bucket: string, ip: string, bucket': string, ip': string)
    requires ':' !in bucket && ':' !in bucket'
    ensures RateKey(bucket, ip) == RateKey(bucket', ip') <==> bucket == bucket' && ip == ip'
  {
    ColonEndsBucket(bucket, ip);
    ColonEndsBucket(bucket', ip');
  }
}
