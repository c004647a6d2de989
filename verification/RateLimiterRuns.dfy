/** Whole runs of `allow_per_command`, by any agents, from the empty limiter. */
module RateLimiterRuns {
  import opened RateLimiters

  /** One call; the agent check reads the clock at `now`, the command check at `later`. */
  datatype Call = Call(agent: string, command: string, now: real, later: real)

  type Use = (string, string)   // an agent and one of its commands

  /** The clock does not run backwards. */
  ghost predicate Ordered(calls: seq<Call>) {
    && (forall i :: 0 <= i < |calls| ==> calls[i].now <= calls[i].later)
    && (forall i, j :: 0 <= i < j < |calls| ==> calls[i].later <= calls[j].now)
  }

  /** All calls are of these agents and commands. */
  ghost predicate Drawn(calls: seq<Call>, uses: iset<Use>) {
    forall i :: 0 <= i < |calls| ==> (calls[i].agent, calls[i].command) in uses
  }

  /** The two clock readings of a call are at most `lag` apart. */
  ghost predicate Within(calls: seq<Call>, lag: real) {
    forall i :: 0 <= i < |calls| ==> calls[i].later - calls[i].now <= lag
  }

  /** Every grant after these calls. */
  ghost function Grants(calls: seq<Call>, limit: int, window: real): map<Key, seq<real>> {
    if calls == [] then map[]
    else
      var c := calls[|calls| - 1];
      var g := Grants(calls[..|calls| - 1], limit, window);
      AfterBoth(g, AgentKey(c.agent), CommandKey(c.agent, c.command), c.now, c.later,
        First(g, c, limit, window), Second(g, c, limit, window))
  }

  /** The agent check passes. */
  ghost predicate First(g: map<Key, seq<real>>, c: Call, limit: int, window: real) {
    HasRoom(g, AgentKey(c.agent), c.now, limit, window)
  }

  /** Both checks pass. */
  ghost predicate Second(g: map<Key, seq<real>>, c: Call, limit: int, window: real) {
    First(g, c, limit, window) && HasRoom(g, CommandKey(c.agent, c.command), c.later, limit, window)
  }

  /** Somewhere in the run the agent check passes and the command check rejects. */
  ghost predicate Bites(calls: seq<Call>, limit: int, window: real) {
    exists i :: 0 <= i < |calls| && BitesAt(calls, i, limit, window)
  }

  ghost predicate BitesAt(calls: seq<Call>, i: nat, limit: int, window: real)
    requires i < |calls|
  {
    var g := Grants(calls[..i], limit, window);
    First(g, calls[i], limit, window) && !Second(g, calls[i], limit, window)
  }

  /** No agent key and no command key of one agent is a command key of another. */
  ghost predicate Apart(uses: iset<Use>) {
    forall p, q :: p in uses && q in uses && p.0 != q.0 ==>
      AgentKey(p.0) != CommandKey(q.0, q.1) && CommandKey(p.0, p.1) != CommandKey(q.0, q.1)
  }

  // ---- One reading, keys apart: the command check never bites ----

  /** The grants of each agent cover those of each of its commands. */
  ghost predicate Dominated(g: map<Key, seq<real>>, uses: iset<Use>) {
    forall p :: p in uses ==> Covers(At(g, AgentKey(p.0)), At(g, CommandKey(p.0, p.1)))
  }

  lemma RoomForBoth(g: map<Key, seq<real>>, c: Call, limit: int, window: real)
    requires Covers(At(g, AgentKey(c.agent)), At(g, CommandKey(c.agent, c.command))) && c.now == c.later
    ensures First(g, c, limit, window) ==> Second(g, c, limit, window)
  {
  }

  lemma StepDominated(g: map<Key, seq<real>>, uses: iset<Use>, c: Call, p: Use)
    requires Apart(uses) && (c.agent, c.command) in uses && p in uses && Dominated(g, uses)
    ensures var (all, some) := (AgentKey(c.agent), CommandKey(c.agent, c.command));
      var next := AfterBoth(g, all, some, c.now, c.now, true, true);
      Covers(At(next, AgentKey(p.0)), At(next, CommandKey(p.0, p.1)))
  {
    var b, d := c.agent, c.command;
    var next := AfterBoth(g, AgentKey(b), CommandKey(b, d), c.now, c.now, true, true);
    var q: Use := (b, d);
    assert Covers(At(g, AgentKey(p.0)), At(g, CommandKey(p.0, p.1)));
    KeysDiffer(b, d, p.1);
    KeysDiffer(p.0, p.1, d);
    if p.0 == b {
      CoversBoth(At(g, AgentKey(b)), At(g, CommandKey(b, p.1)), c.now);
    } else {
      assert AgentKey(p.0) != CommandKey(q.0, q.1) && CommandKey(p.0, p.1) != CommandKey(q.0, q.1);
      assert AgentKey(q.0) != CommandKey(p.0, p.1);
      AgentKeysDiffer(p.0, b);
    }
  }

  lemma AgentKeysDiffer(a: string, b: string)
    requires a != b
    ensures AgentKey(a) != AgentKey(b)
  {
    assert AgentKey(a)[6..] == a && AgentKey(b)[6..] == b;
  }

  lemma {:induction false} RunDominated(calls: seq<Call>, uses: iset<Use>, limit: int, window: real)
    requires Drawn(calls, uses) && Apart(uses) && Within(calls, 0.0) && Ordered(calls)
    ensures Dominated(Grants(calls, limit, window), uses)
  {
    if calls != [] {
      var n := |calls| - 1;
      var c, g := calls[n], Grants(calls[..n], limit, window);
      RunDominated(calls[..n], uses, limit, window);
      assert (c.agent, c.command) in uses;
      RoomForBoth(g, c, limit, window);
      if First(g, c, limit, window) {
        forall p | p in uses
          ensures Covers(At(Grants(calls, limit, window), AgentKey(p.0)), At(Grants(calls, limit, window), CommandKey(p.0, p.1)))
        {
          StepDominated(g, uses, c, p);
        }
      }
    }
  }

  lemma OneReadingNeverBites(calls: seq<Call>, uses: iset<Use>, limit: int, window: real)
    requires Drawn(calls, uses) && Apart(uses) && Within(calls, 0.0) && Ordered(calls)
    ensures !Bites(calls, limit, window)
  {
    forall i | 0 <= i < |calls| ensures !BitesAt(calls, i, limit, window) {
      RunDominated(calls[..i], uses, limit, window);
      assert (calls[i].agent, calls[i].command) in uses;
      RoomForBoth(Grants(calls[..i], limit, window), calls[i], limit, window);
    }
  }

  // ---- Runs that bite ----

  function Repeat(t: real, n: nat): (r: seq<real>)
    ensures |r| == n && forall i :: 0 <= i < n ==> r[i] == t
  {
    seq(n, i => t)
  }

  /** `n` calls of one command: the first reads the clock at 0 and at `e`, the others read it at `e`. */
  function Burst(a: string, c: string, e: real, n: nat): (r: seq<Call>)
    requires n > 0
    ensures |r| == n && r[0] == Call(a, c, 0.0, e) && forall i :: 0 < i < n ==> r[i] == Call(a, c, e, e)
  {
    if n == 1 then [Call(a, c, 0.0, e)] else Burst(a, c, e, n - 1) + [Call(a, c, e, e)]
  }

  function BurstMap(all: Key, some: Key, e: real, n: nat): map<Key, seq<real>>
    requires n > 0
  {
    map[all := [0.0] + Repeat(e, n - 1), some := Repeat(e, n)]
  }

  lemma BurstMapStep(all: Key, some: Key, e: real, n: nat)
    requires all != some && n > 0
    ensures AfterBoth(BurstMap(all, some, e, n), all, some, e, e, true, true) == BurstMap(all, some, e, n + 1)
  {
    assert [0.0] + Repeat(e, n - 1) + [e] == [0.0] + Repeat(e, n);
    assert Repeat(e, n) + [e] == Repeat(e, n + 1);
  }

  lemma RoomByLength(g: map<Key, seq<real>>, c: Call, limit: int, window: real)
    requires |At(g, AgentKey(c.agent))| < limit && |At(g, CommandKey(c.agent, c.command))| < limit
    ensures First(g, c, limit, window) && Second(g, c, limit, window)
  {
    CountBound(At(g, AgentKey(c.agent)), c.now - window, c.now);
    CountBound(At(g, CommandKey(c.agent, c.command)), c.later - window, c.later);
  }

  lemma GrantsStep(calls: seq<Call>, n: nat, limit: int, window: real)
    requires n < |calls|
    ensures var (c, g) := (calls[n], Grants(calls[..n], limit, window));
      Grants(calls[..n + 1], limit, window) == AfterBoth(g, AgentKey(c.agent), CommandKey(c.agent, c.command), c.now, c.later,
        First(g, c, limit, window), Second(g, c, limit, window))
  {
    assert calls[..n + 1][..n] == calls[..n];
  }

  lemma {:induction false} BurstGrants(a: string, c: string, e: real, n: nat, limit: int, window: real)
    requires 0 < n <= limit && e >= 0.0
    ensures Grants(Burst(a, c, e, n), limit, window) == BurstMap(AgentKey(a), CommandKey(a, c), e, n)
  {
    var calls := Burst(a, c, e, n);
    assert AgentKey(a) != CommandKey(a, c) by { KeysDiffer(a, c, c); }
    assert calls[..n] == calls;
    GrantsStep(calls, n - 1, limit, window);
    if n == 1 {
      assert calls[..0] == [];
      RoomByLength(map[], calls[0], limit, window);
      assert [] + [e] == [e] == Repeat(e, 1) && [] + [0.0] == [0.0] == [0.0] + Repeat(e, 0);
    } else {
      assert calls[..n - 1] == Burst(a, c, e, n - 1);
      BurstGrants(a, c, e, n - 1, limit, window);
      RoomByLength(BurstMap(AgentKey(a), CommandKey(a, c), e, n - 1), calls[n - 1], limit, window);
      BurstMapStep(AgentKey(a), CommandKey(a, c), e, n - 1);
    }
  }

  lemma BurstThen(a: string, c: string, e: real, n: nat, limit: int, window: real, last: Call)
    requires 0 < n <= limit && e >= 0.0
    requires var g := BurstMap(AgentKey(a), CommandKey(a, c), e, n);
      First(g, last, limit, window) && !Second(g, last, limit, window)
    ensures Bites(Burst(a, c, e, n) + [last], limit, window)
  {
    var calls := Burst(a, c, e, n) + [last];
    BurstGrants(a, c, e, n, limit, window);
    assert calls[..n] == Burst(a, c, e, n) && calls[n] == last;
    assert BitesAt(calls, n, limit, window);
  }

  lemma BurstOrdered(p: Use, e: real, n: nat, last: Call)
    requires n > 0 && 0.0 <= e <= last.now <= last.later
    ensures var calls := Burst(p.0, p.1, e, n) + [last];
      && Ordered(calls)
      && (last.later == last.now ==> Within(calls, e))
      && Drawn(calls, iset{p, (last.agent, last.command)})
  {
  }

  /** Calls of one agent fill a key that is also a command key of another, and the other's command check bites. */
  lemma CollisionBites(p: Use, q: Use, limit: int, window: real) returns (calls: seq<Call>)
    requires limit > 0 && window >= 0.0 && p.0 != q.0
    requires AgentKey(p.0) == CommandKey(q.0, q.1) || CommandKey(p.0, p.1) == CommandKey(q.0, q.1)
    ensures Ordered(calls) && Within(calls, 0.0) && Drawn(calls, iset{p, q}) && Bites(calls, limit, window)
  {
    var last := Call(q.0, q.1, 0.0, 0.0);
    calls := Burst(p.0, p.1, 0.0, limit) + [last];
    var g := BurstMap(AgentKey(p.0), CommandKey(p.0, p.1), 0.0, limit);
    KeysDiffer(p.0, p.1, p.1);
    AgentKeysDiffer(p.0, q.0);
    assert |AgentKey(q.0)| < |CommandKey(q.0, q.1)| && |AgentKey(p.0)| < |CommandKey(p.0, p.1)|;
    assert At(g, AgentKey(q.0)) == [];
    assert |At(g, CommandKey(q.0, q.1))| == limit;
    CountAll(At(g, CommandKey(q.0, q.1)), 0.0 - window, 0.0);
    BurstThen(p.0, p.1, 0.0, limit, limit, window, last);
    BurstOrdered(p, 0.0, limit, last);
  }

  /** When the first grant is out of the window and the others are in it. */
  lemma OutAndIn(lag: real, t: real, limit: nat, window: real)
    requires limit > 0 && t - window <= lag <= t && 0.0 < t - window
    ensures CountIn([0.0] + Repeat(lag, limit - 1), t - window, t) < limit
    ensures CountIn(Repeat(lag, limit), t - window, t) == limit
  {
    CountConcat([0.0], Repeat(lag, limit - 1), t - window, t);
    CountNone([0.0], t - window, t);
    CountBound(Repeat(lag, limit - 1), t - window, t);
    CountAll(Repeat(lag, limit), t - window, t);
  }

  /** With any distance between its two readings, one command of one agent is enough. */
  lemma LagBites(p: Use, lag: real, limit: int, window: real) returns (calls: seq<Call>)
    requires limit > 0 && window >= 0.0 && lag > 0.0
    ensures Ordered(calls) && Within(calls, lag) && Drawn(calls, iset{p}) && Bites(calls, limit, window)
  {
    var t := if window < lag / 2.0 then lag else window + lag / 2.0;
    var last := Call(p.0, p.1, t, t);
    assert AgentKey(p.0) != CommandKey(p.0, p.1) by { KeysDiffer(p.0, p.1, p.1); }
    OutAndIn(lag, t, limit, window);
    BurstThen(p.0, p.1, lag, limit, limit, window, last);
    BurstOrdered(p, lag, limit, last);
    calls := Burst(p.0, p.1, lag, limit) + [last];
  }

  // ---- Exactly when ----

  /** The command check never rejects after the agent check passed, in any run of these uses with readings at most
      `lag` apart. */
  ghost predicate NeverBites(uses: iset<Use>, lag: real, limit: int, window: real) {
    forall calls :: Ordered(calls) && Drawn(calls, uses) && Within(calls, lag) ==> !Bites(calls, limit, window)
  }

  /** With one clock reading a call, the command check is idle in every run if and only if the keys are apart. */
  lemma OneReadingIff(uses: iset<Use>, limit: int, window: real)
    requires limit > 0 && window >= 0.0
    ensures NeverBites(uses, 0.0, limit, window) <==> Apart(uses)
  {
    if Apart(uses) {
      forall calls | Ordered(calls) && Drawn(calls, uses) && Within(calls, 0.0) ensures !Bites(calls, limit, window) {
        OneReadingNeverBites(calls, uses, limit, window);
      }
    } else {
      var p, q :| p in uses && q in uses && p.0 != q.0
        && (AgentKey(p.0) == CommandKey(q.0, q.1) || CommandKey(p.0, p.1) == CommandKey(q.0, q.1));
      var calls := CollisionBites(p, q, limit, window);
      assert Drawn(calls, uses);
    }
  }

  /** And however far apart the readings may be, if and only if they coincide and the keys are apart. */
  lemma IdleIff(uses: iset<Use>, lag: real, limit: int, window: real)
    requires limit > 0 && window >= 0.0 && lag >= 0.0 && uses != iset{}
    ensures NeverBites(uses, lag, limit, window) <==> lag == 0.0 && Apart(uses)
  {
    if lag == 0.0 {
      OneReadingIff(uses, limit, window);
    } else {
      var p :| p in uses;
      var calls := LagBites(p, lag, limit, window);
      assert Drawn(calls, uses);
    }
  }

  /** Where the limiter grants nothing, or forgets at once, there is nothing to bite. */
  lemma IdleOtherwise(calls: seq<Call>, limit: int, window: real)
    requires limit <= 0 || window < 0.0
    ensures !Bites(calls, limit, window)
  {
    forall i | 0 <= i < |calls| ensures !BitesAt(calls, i, limit, window) {
      var c, g := calls[i], Grants(calls[..i], limit, window);
      if window < 0.0 {
        CountNone(At(g, CommandKey(c.agent, c.command)), c.later - window, c.later);
      }
    }
  }

  // ---- The limiter itself ----

  /** Each call was let through exactly if both its checks passed. */
  ghost predicate Answers(calls: seq<Call>, oks: seq<bool>, limit: int, window: real)
    requires |oks| <= |calls|
  {
    forall i :: 0 <= i < |oks| ==> oks[i] == Second(Grants(calls[..i], limit, window), calls[i], limit, window)
  }

  /** Running the limiter on the calls gives these answers. */
  method RunCalls(limit: int, window: real, calls: seq<Call>) returns (oks: seq<bool>)
    requires Ordered(calls)
    ensures |oks| == |calls| && Answers(calls, oks, limit, window)
  {
    oks := [];
    var limiter := new RateLimiter(limit, window, if calls == [] then 0.0 else calls[0].now);
    for n := 0 to |calls|
      invariant limiter.Valid() && limiter.limit == limit && limiter.window == window && fresh(limiter)
      invariant n < |calls| ==> limiter.clock <= calls[n].now
      invariant limiter.granted == Grants(calls[..n], limit, window)
      invariant |oks| == n && Answers(calls, oks, limit, window)
    {
      var ok := NextCall(limiter, calls, n);
      oks := oks + [ok];
    }
  }

  method NextCall(limiter: RateLimiter, calls: seq<Call>, n: nat) returns (ok: bool)
    requires n < |calls| && Ordered(calls) && limiter.Valid() && limiter.clock <= calls[n].now
    requires limiter.granted == Grants(calls[..n], limiter.limit, limiter.window)
    modifies limiter
    ensures limiter.Valid() && limiter.clock <= calls[n].later
    ensures limiter.granted == Grants(calls[..n + 1], limiter.limit, limiter.window)
    ensures ok == Second(Grants(calls[..n], limiter.limit, limiter.window), calls[n], limiter.limit, limiter.window)
  {
    GrantsStep(calls, n, limiter.limit, limiter.window);
    ok := OneCall(limiter, calls[n]);
  }

  method OneCall(limiter: RateLimiter, c: Call) returns (ok: bool)
    requires limiter.Valid() && limiter.clock <= c.now <= c.later
    modifies limiter
    ensures limiter.Valid() && limiter.clock <= c.later
    ensures var (g, limit, window) := (old(limiter.granted), limiter.limit, limiter.window);
      && ok == Second(g, c, limit, window)
      && limiter.granted == AfterBoth(g, AgentKey(c.agent), CommandKey(c.agent, c.command), c.now, c.later,
           First(g, c, limit, window), ok)
  {
    var _, passed := limiter.AllowPerCommand(c.agent, c.command, c.now, c.later);
    ok := passed;
  }

  /** Two calls under limit 1: the first goes through. */
  lemma TwoCalls(calls: seq<Call>, window: real)
    requires |calls| == 2
    ensures var (c, d) := (calls[0], calls[1]);
      var g := map[AgentKey(c.agent) := [c.now], CommandKey(c.agent, c.command) := [c.later]];
      && Second(Grants(calls[..0], 1, window), c, 1, window)
      && Grants(calls[..1], 1, window) == g
      && (First(g, d, 1, window) && !Second(g, d, 1, window) ==> Bites(calls, 1, window))
  {
    var c := calls[0];
    assert calls[..0] == [];
    assert AgentKey(c.agent) != CommandKey(c.agent, c.command) by { KeysDiffer(c.agent, c.command, c.command); }
    RoomByLength(map[], c, 1, window);
    GrantsStep(calls, 0, 1, window);
    assert [] + [c.now] == [c.now] && [] + [c.later] == [c.later];
    assert BitesAt(calls, 1, 1, window) ==> Bites(calls, 1, window);
  }

  lemma CountOne(t: real, from: real, to: real)
    ensures CountIn([t], from, to) == if from <= t <= to then 1 else 0
  {
    assert [t][1..] == [];
  }

  /** Two agents, one reading a call: the agent id of the first reads like a command of the second, whose command check
      rejects although its agent has made no call. */
  method CollidingAgents() returns (oks: seq<bool>)
    ensures oks == [true, false]
    ensures Bites([Call("x:cmd:y", "z", 0.0, 0.0), Call("x", "y", 0.0, 0.0)], 1, 10.0)
  {
    var calls := [Call("x:cmd:y", "z", 0.0, 0.0), Call("x", "y", 0.0, 0.0)];
    oks := RunCalls(1, 10.0, calls);
    assert AgentKey("x:cmd:y") == CommandKey("x", "y");
    assert |CommandKey("x:cmd:y", "z")| > |AgentKey("x:cmd:y")| > |AgentKey("x")|;
    CountOne(0.0, -10.0, 0.0);
    TwoCalls(calls, 10.0);
  }

  /** One agent, two readings: the agent's grant has left the window, its command's has not. */
  method SeparateReadings() returns (oks: seq<bool>)
    ensures oks == [true, false]
    ensures Bites([Call("x", "y", 0.0, 1.0), Call("x", "y", 10.5, 10.5)], 1, 10.0)
  {
    var calls := [Call("x", "y", 0.0, 1.0), Call("x", "y", 10.5, 10.5)];
    oks := RunCalls(1, 10.0, calls);
    assert |CommandKey("x", "y")| > |AgentKey("x")|;
    CountOne(0.0, 0.5, 10.5);
    CountOne(1.0, 0.5, 10.5);
    TwoCalls(calls, 10.0);
  }
}
