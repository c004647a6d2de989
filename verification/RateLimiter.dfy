/** The sliding-window rate limiter, over real time. */
module RateLimiters {

  /** How many of the times lie in the closed interval. */
  function CountIn(times: seq<real>, from: real, to: real): nat {
    if times == [] then 0 else (if from <= times[0] <= to then 1 else 0) + CountIn(times[1..], from, to)
  }

  ghost predicate Sorted(times: seq<real>) {
    forall i, j :: 0 <= i < j < |times| ==> times[i] <= times[j]
  }

  /** The grant `limit` places later is more than a window later. */
  ghost predicate Spaced(times: seq<real>, limit: int, window: real) {
    forall i, j :: 0 <= i < j < |times| && j - i >= limit ==> times[j] - times[i] > window
  }

  /** Both, link by link: each time is compared with the one before it and the one `limit` places before it. */
  ghost predicate Chained(times: seq<real>, limit: int, window: real) {
    times == [] ||
    (var n := |times| - 1;
     && Chained(times[..n], limit, window)
     && (n > 0 ==> times[n - 1] <= times[n])
     && (0 < limit <= n ==> times[n] - times[n - limit] > window))
  }

  lemma {:induction false} ChainedMeans(times: seq<real>, limit: int, window: real)
    requires Chained(times, limit, window) && (limit <= 0 ==> times == [])
    ensures Sorted(times) && Spaced(times, limit, window)
  {
    if times != [] {
      var front, t := times[..|times| - 1], times[|times| - 1];
      assert times == front + [t];
      ChainedMeans(front, limit, window);
      SortedNext(front, t);
      SpacedNext(front, t, limit, window);
    }
  }

  lemma SortedNext(times: seq<real>, t: real)
    requires Sorted(times) && (times != [] ==> times[|times| - 1] <= t)
    ensures Sorted(times + [t])
  {
    forall i | 0 <= i < |times| ensures times[i] <= t {
      assert times[i] <= times[|times| - 1];
    }
  }

  lemma SpacedNext(times: seq<real>, t: real, limit: int, window: real)
    requires Sorted(times) && Spaced(times, limit, window) && limit > 0
    requires limit <= |times| ==> t - times[|times| - limit] > window
    ensures Spaced(times + [t], limit, window)
  {
    forall i | 0 <= i < |times| && |times| - i >= limit ensures t - times[i] > window {
      assert times[i] <= times[|times| - limit];
    }
  }

  lemma {:induction false} CountConcat(a: seq<real>, b: seq<real>, from: real, to: real)
    ensures CountIn(a + b, from, to) == CountIn(a, from, to) + CountIn(b, from, to)
  {
    if a == [] {
      assert a + b == b;
    } else {
      assert (a + b)[0] == a[0] && (a + b)[1..] == a[1..] + b;
      CountConcat(a[1..], b, from, to);
    }
  }

  lemma {:induction false} CountAll(times: seq<real>, from: real, to: real)
    requires forall i :: 0 <= i < |times| ==> from <= times[i] <= to
    ensures CountIn(times, from, to) == |times|
  {
    if times != [] {
      assert forall i :: 0 <= i < |times[1..]| ==> times[1..][i] == times[i + 1];
      CountAll(times[1..], from, to);
    }
  }

  lemma {:induction false} CountNone(times: seq<real>, from: real, to: real)
    requires forall i :: 0 <= i < |times| ==> !(from <= times[i] <= to)
    ensures CountIn(times, from, to) == 0
  {
    if times != [] {
      assert forall i :: 0 <= i < |times[1..]| ==> times[1..][i] == times[i + 1];
      CountNone(times[1..], from, to);
    }
  }

  /** If the first `k` times lie before the interval and the others in it, the others are counted. */
  lemma CountSuffix(times: seq<real>, k: nat, from: real, to: real)
    requires k <= |times|
    requires forall i :: 0 <= i < k ==> times[i] < from
    requires forall i :: k <= i < |times| ==> from <= times[i] <= to
    ensures CountIn(times, from, to) == |times| - k
  {
    assert times == times[..k] + times[k..];
    CountConcat(times[..k], times[k..], from, to);
    CountNone(times[..k], from, to);
    CountAll(times[k..], from, to);
  }

  /** No closed interval as long as the window holds more grants than the limit. */
  lemma {:induction false} AtMostLimit(times: seq<real>, limit: int, window: real, from: real)
    requires Sorted(times) && Spaced(times, limit, window) && (limit <= 0 ==> times == [])
    ensures CountIn(times, from, from + window) <= if limit > 0 then limit else 0
    decreases |times|
  {
    if times != [] {
      assert forall i :: 0 <= i < |times[1..]| ==> times[1..][i] == times[i + 1];
      if times[0] < from {
        AtMostLimit(times[1..], limit, window, from);
      } else if |times| > limit {
        assert times[limit] - times[0] > window;
        assert forall i :: limit <= i < |times| ==> times[limit] <= times[i];
        assert times == times[..limit] + times[limit..];
        CountConcat(times[..limit], times[limit..], from, from + window);
        CountNone(times[limit..], from, from + window);
        CountBound(times[..limit], from, from + window);
      } else {
        CountBound(times, from, from + window);
      }
    }
  }

  lemma {:induction false} CountBound(times: seq<real>, from: real, to: real)
    ensures CountIn(times, from, to) <= |times|
  {
    if times != [] {
      CountBound(times[1..], from, to);
    }
  }

  type Key = string

  function AgentKey(agent: string): Key { "agent:" + agent }
  function CommandKey(agent: string, command: string): Key { "agent:" + agent + ":cmd:" + command }

  /** One agent's keys do not collide. */
  lemma KeysDiffer(agent: string, c: string, d: string)
    ensures AgentKey(agent) != CommandKey(agent, c)
    ensures CommandKey(agent, c) == CommandKey(agent, d) ==> c == d
  {
    assert |CommandKey(agent, c)| > |AgentKey(agent)|;
    var n := |"agent:" + agent + ":cmd:"|;
    assert CommandKey(agent, c)[n..] == c;
    assert CommandKey(agent, d)[n..] == d;
  }

  /** The queue kept for a key holds the grants that can still matter, and the grants keep their distance. */
  ghost predicate Good(g: seq<real>, q: seq<real>, clock: real, limit: int, window: real) {
    && |q| <= |g|
    && q == g[|g| - |q|..]
    && (forall i :: 0 <= i < |g| - |q| ==> clock - g[i] > window)
    && (forall i :: 0 <= i < |g| ==> g[i] <= clock)
    && Chained(g, limit, window)
    && (limit <= 0 ==> g == [])
  }

  lemma Later(g: seq<real>, q: seq<real>, clock: real, now: real, limit: int, window: real)
    requires Good(g, q, clock, limit, window) && clock <= now
    ensures Good(g, q, now, limit, window)
  {
  }

  lemma DropStale(g: seq<real>, q: seq<real>, now: real, limit: int, window: real)
    requires Good(g, q, now, limit, window) && q != [] && now - q[0] > window
    ensures Good(g, q[1..], now, limit, window)
  {
    assert g[|g| - |q|] == q[0];
  }

  /** With the stale head gone, the queue is the last window. */
  lemma LastWindow(g: seq<real>, q: seq<real>, now: real, limit: int, window: real)
    requires Good(g, q, now, limit, window) && (q != [] ==> now - q[0] <= window)
    ensures CountIn(g, now - window, now) == |q| <= if limit > 0 then limit else 0
  {
    var k := |g| - |q|;
    ChainedMeans(g, limit, window);
    assert forall i :: k <= i < |g| ==> g[i] == q[i - k] && q[0] == g[k] <= g[i];
    CountSuffix(g, k, now - window, now);
    AtMostLimit(g, limit, window, now - window);
  }

  lemma Granted(g: seq<real>, q: seq<real>, now: real, limit: int, window: real)
    requires Good(g, q, now, limit, window) && |q| < limit
    ensures Good(g + [now], q + [now], now, limit, window)
  {
    var h := g + [now];
    assert q + [now] == h[|h| - |q + [now]|..];
    assert h[..|g|] == g;
    assert forall i :: 0 <= i < |h| ==> h[i] == if i < |g| then g[i] else now;
  }

  /** In every interval `all` has at least as many times as `some`. */
  ghost predicate Covers(all: seq<real>, some: seq<real>) {
    forall from: real, to: real :: CountIn(some, from, to) <= CountIn(all, from, to)
  }

  lemma CoversBoth(all: seq<real>, some: seq<real>, t: real)
    requires Covers(all, some)
    ensures Covers(all + [t], some + [t]) && Covers(all + [t], some)
  {
    forall from: real, to: real
      ensures CountIn(some, from, to) <= CountIn(all + [t], from, to)
      ensures CountIn(some + [t], from, to) <= CountIn(all + [t], from, to)
    {
      CountConcat(all, [t], from, to);
      CountConcat(some, [t], from, to);
    }
  }

  function At(m: map<Key, seq<real>>, key: Key): seq<real> {
    if key in m then m[key] else []
  }

  /** Fewer than `limit` grants in the last window. */
  ghost predicate HasRoom(granted: map<Key, seq<real>>, key: Key, now: real, limit: int, window: real) {
    CountIn(At(granted, key), now - window, now) < limit
  }

  lemma RoomElsewhere(granted: map<Key, seq<real>>, granted': map<Key, seq<real>>, all: Key, some: Key, now: real,
                      limit: int, window: real)
    requires all != some && all in granted' && granted' == granted[all := granted'[all]]
    ensures At(granted', some) == At(granted, some)
    ensures HasRoom(granted', some, now, limit, window) == HasRoom(granted, some, now, limit, window)
  {
  }

  ghost function AfterBoth(granted: map<Key, seq<real>>, all: Key, some: Key, now: real, later: real, first: bool, ok: bool)
    : map<Key, seq<real>> {
    if ok then granted[all := At(granted, all) + [now]][some := At(granted, some) + [later]]
    else if first then granted[all := At(granted, all) + [now]]
    else granted
  }

  ghost predicate AllGood(granted: map<Key, seq<real>>, events: map<Key, seq<real>>, clock: real, limit: int, window: real) {
    forall key :: Good(At(granted, key), At(events, key), clock, limit, window)
  }

  /** A call touches one key and moves the clock on. */
  lemma OneKey(granted: map<Key, seq<real>>, events: map<Key, seq<real>>, clock: real, limit: int, window: real,
               key: Key, granted': map<Key, seq<real>>, q: seq<real>, now: real)
    requires AllGood(granted, events, clock, limit, window) && clock <= now
    requires Good(At(granted', key), q, now, limit, window)
    requires forall other :: other != key ==> At(granted', other) == At(granted, other)
    ensures AllGood(granted', events[key := q], now, limit, window)
  {
    forall other ensures Good(At(granted', other), At(events[key := q], other), now, limit, window) {
      if other != key {
        OtherKey(At(granted, other), At(events, other), clock, limit, window, At(granted', other), At(events[key := q], other), now);
      }
    }
  }

  lemma OtherKey(g: seq<real>, q: seq<real>, clock: real, limit: int, window: real, g': seq<real>, q': seq<real>, now: real)
    requires Good(g, q, clock, limit, window) && clock <= now && g' == g && q' == q
    ensures Good(g', q', now, limit, window)
  {
    Later(g, q, clock, now, limit, window);
  }

  /** A grant keeps every queue right. */
  lemma OneGrant(granted: map<Key, seq<real>>, events: map<Key, seq<real>>, clock: real, limit: int, window: real,
                 key: Key, q: seq<real>, now: real)
    requires AllGood(granted, events, clock, limit, window) && clock <= now
    requires Good(At(granted, key), q, now, limit, window) && |q| < limit
    ensures AllGood(granted[key := At(granted, key) + [now]], events[key := q + [now]], now, limit, window)
  {
    var g := At(granted, key) + [now];
    assert Good(g, q + [now], now, limit, window) by {
      Granted(At(granted, key), q, now, limit, window);
    }
    OneKey(granted, events, clock, limit, window, key, granted[key := g], q + [now], now);
  }

  /** A call keeps every queue right, granted or not. */
  lemma OneCall(granted: map<Key, seq<real>>, events: map<Key, seq<real>>, clock: real, limit: int, window: real,
                key: Key, q: seq<real>, now: real)
    requires AllGood(granted, events, clock, limit, window) && clock <= now
    requires Good(At(granted, key), q, now, limit, window)
    ensures |q| < limit ==>
      AllGood(granted[key := At(granted, key) + [now]], events[key := q + [now]], now, limit, window)
    ensures |q| >= limit ==> AllGood(granted, events[key := q], now, limit, window)
  {
    if |q| < limit {
      OneGrant(granted, events, clock, limit, window, key, q, now);
    } else {
      OneKey(granted, events, clock, limit, window, key, granted, q, now);
    }
  }

  class RateLimiter {
    const limit: int
    const window: real
    var events: map<Key, seq<real>>
    ghost var clock: real
    ghost var granted: map<Key, seq<real>>   // every grant ever made

    ghost function Grants(key: Key): seq<real>
      reads this
    {
      At(granted, key)
    }

    ghost predicate Valid()
      reads this
    {
      AllGood(granted, events, clock, limit, window)
    }

    constructor (limit: int, window: real, clock: real)
      ensures Valid() && this.limit == limit && this.window == window && this.clock == clock
      ensures granted == map[]
    {
      this.limit, this.window, events, granted := limit, window, map[], map[];
      this.clock := clock;
    }

    /** `allow`: granted exactly when fewer than `limit` grants lie in the last window. */
    method Allow(key: Key, now: real) returns (ok: bool)
      requires Valid() && now >= clock
      modifies this
      ensures Valid() && clock == now
      ensures ok == HasRoom(old(granted), key, now, limit, window)
      ensures !ok ==> CountIn(old(Grants(key)), now - window, now) == if limit > 0 then limit else 0
      ensures granted == if ok then old(granted)[key := old(Grants(key)) + [now]] else old(granted)
    {
      var q := Trim(Grants(key), At(events, key), clock, now);
      OneCall(granted, events, clock, limit, window, key, q, now);
      ok := |q| < limit;
      if ok {
        q := q + [now];
        granted := granted[key := At(granted, key) + [now]];
      }
      events := events[key := q];
      clock := now;
    }

    /** In any run, no closed interval as long as the window holds more than `limit` grants of a key. */
    lemma NeverOverLimit(key: Key, from: real)
      requires Valid()
      ensures CountIn(Grants(key), from, from + window) <= if limit > 0 then limit else 0
    {
      assert Good(At(granted, key), At(events, key), clock, limit, window);
      ChainedMeans(Grants(key), limit, window);
      AtMostLimit(Grants(key), limit, window, from);
    }

    /** The loop of `allow`. */
    method Trim(ghost g: seq<real>, queue: seq<real>, ghost clock: real, now: real) returns (q: seq<real>)
      requires Good(g, queue, clock, limit, window) && clock <= now
      ensures Good(g, q, now, limit, window)
      ensures CountIn(g, now - window, now) == |q| <= if limit > 0 then limit else 0
    {
      q := queue;
      Later(g, q, clock, now, limit, window);
      while q != [] && now - q[0] > window
        invariant Good(g, q, now, limit, window)
        decreases |q|
      {
        DropStale(g, q, now, limit, window);
        q := q[1..];
      }
      LastWindow(g, q, now, limit, window);
    }

    /** Both checks of `allow_per_command`, which read the clock at `now` and `later`. */
    method AllowBoth(all: Key, some: Key, now: real, later: real) returns (ghost first: bool, ok: bool)
      requires Valid() && clock <= now <= later && all != some
      modifies this
      ensures Valid() && clock <= later
      ensures first == HasRoom(old(granted), all, now, limit, window)
      ensures ok == (first && HasRoom(old(granted), some, later, limit, window))
      ensures granted == AfterBoth(old(granted), all, some, now, later, first, ok)
    {
      ghost var g0 := granted;
      ok := Allow(all, now);
      first := ok;
      if ok {
        RoomElsewhere(g0, granted, all, some, later, limit, window);
        ok := Allow(some, later);
      }
    }

    /** `allow_per_command`. */
    method AllowPerCommand(agent: string, command: string, now: real, later: real) returns (ghost first: bool, ok: bool)
      requires Valid() && clock <= now <= later
      modifies this
      ensures Valid() && clock <= later
      ensures first == HasRoom(old(granted), AgentKey(agent), now, limit, window)
      ensures ok == (first && HasRoom(old(granted), CommandKey(agent, command), later, limit, window))
      ensures granted == AfterBoth(old(granted), AgentKey(agent), CommandKey(agent, command), now, later, first, ok)
    {
      assert AgentKey(agent) != CommandKey(agent, command) by { KeysDiffer(agent, command, command); }
      first, ok := AllowBoth(AgentKey(agent), CommandKey(agent, command), now, later);
    }
  }
}
