/** The agent's side of a command: duplicate suppression, the checks, and the answers. */
module AgentSession {
  import opened Sequences
  import opened CommandRecords

  const DEDUP_MAX: nat := 256

  datatype Frame = Ack(id: Id) | Response(id: Id, status: Status)

  /** What the session does, in order. */
  datatype Action = Emit(frame: Frame) | Execute(id: Id)

  /** A `command_request` as received, with what the local checks make of it when they are reached. */
  datatype Request = Request(
    id: Id, command: string,
    signatureOk: bool, policyOk: bool, rateOk: bool, scriptOk: bool, expired: bool,
    long: bool, succeeds: bool)

  /** The request gets as far as the duplicate check. */
  predicate Considered(req: Request) {
    req.id != "" && req.command != ""
  }

  predicate Runs(req: Request) {
    req.signatureOk && req.policyOk && req.rateOk && (req.command == "run_script" ==> req.scriptOk) && !req.expired
  }

  // ---- The window ----

  predicate Distinct<T(==)>(s: seq<T>) {
    forall i, j :: 0 <= i < j < |s| ==> s[i] != s[j]
  }

  function Last<T>(s: seq<T>, n: nat): (r: seq<T>)
    ensures |r| == if |s| < n then |s| else n
  {
    if |s| < n then s else s[|s| - n..]
  }

  /** `_is_duplicate_message` on the window alone. */
  function Admit(window: seq<Id>, id: Id): seq<Id> {
    if id in window then window
    else if |window| >= DEDUP_MAX then window[1..] + [id]
    else window + [id]
  }

  /** The window after a run of deliveries to a new process. */
  function Window(deliveries: seq<Id>): seq<Id> {
    if deliveries == [] then []
    else Admit(Window(deliveries[..|deliveries| - 1]), deliveries[|deliveries| - 1])
  }

  /** The ids let through over that run, in order, as often as they were let through. */
  function Admitted(deliveries: seq<Id>): seq<Id> {
    if deliveries == [] then []
    else
      var before := deliveries[..|deliveries| - 1];
      var id := deliveries[|deliveries| - 1];
      if id in Window(before) then Admitted(before) else Admitted(before) + [id]
  }

  /** The window is the last 256 ids let through, and it holds none twice. */
  lemma {:induction false} WindowIsLast(ds: seq<Id>)
    ensures Window(ds) == Last(Admitted(ds), 256)
    ensures Distinct(Window(ds))
  {
    if ds != [] {
      var before, id := ds[..|ds| - 1], ds[|ds| - 1];
      WindowIsLast(before);
      AdmitIsLast(Window(before), Admitted(before), id);
    }
  }

  /** The window slides with the list it ends. */
  lemma AdmitIsLast(window: seq<Id>, all: seq<Id>, id: Id)
    requires window == Last(all, DEDUP_MAX) && Distinct(window)
    ensures Admit(window, id) == Last(if id in window then all else all + [id], DEDUP_MAX)
    ensures Distinct(Admit(window, id))
  {
  }

  lemma {:induction false} AdmittedGrows(ds: seq<Id>, i: nat)
    requires i <= |ds|
    ensures |Admitted(ds[..i])| <= |Admitted(ds)|
    ensures Admitted(ds)[..|Admitted(ds[..i])|] == Admitted(ds[..i])
    decreases |ds| - i
  {
    if i == |ds| {
      assert ds[..i] == ds;
    } else {
      AdmittedGrows(ds, i + 1);
      assert ds[..i + 1][..i] == ds[..i];
      var a, b := Admitted(ds[..i]), Admitted(ds[..i + 1]);
      assert b[..|a|] == a;
      assert Admitted(ds)[..|a|] == Admitted(ds)[..|b|][..|a|];
    }
  }

  /** How many ids are let through after delivery `i` and before delivery `j`. */
  function Between(ds: seq<Id>, i: nat, j: nat): int
    requires i < j < |ds|
  {
    |Admitted(ds[..j])| - |Admitted(ds[..i + 1])|
  }

  /** At most 255 ids are let through between any two deliveries of one id. */
  ghost predicate Spaced(ds: seq<Id>) {
    forall i, j :: 0 <= i < j < |ds| && ds[i] == ds[j] ==> Between(ds, i, j) < 256
  }

  /** What is let through was delivered, and everything delivered was let through then or before. */
  lemma {:induction false} AdmittedFrom(ds: seq<Id>)
    ensures forall id :: id in Admitted(ds) <==> id in ds
  {
    if ds != [] {
      var before, id := ds[..|ds| - 1], ds[|ds| - 1];
      AdmittedFrom(before);
      WindowIsLast(before);
      assert ds == before + [id];
      if id in Window(before) {
        assert id in Admitted(before);
      }
    }
  }

  lemma AdmittedStep(ds: seq<Id>, i: nat)
    requires i < |ds|
    ensures Admitted(ds[..i + 1])
         == if ds[i] in Window(ds[..i]) then Admitted(ds[..i]) else Admitted(ds[..i]) + [ds[i]]
  {
    assert ds[..i + 1][..i] == ds[..i];
  }

  lemma SpacedPrefix(ds: seq<Id>, n: nat)
    requires n <= |ds| && Spaced(ds)
    ensures Spaced(ds[..n])
  {
    forall i, j | 0 <= i < j < n && ds[..n][i] == ds[..n][j]
      ensures Between(ds[..n], i, j) < DEDUP_MAX
    {
      assert ds[..n][..j] == ds[..j] && ds[..n][..i + 1] == ds[..i + 1];
      assert Between(ds, i, j) < DEDUP_MAX;
    }
  }

  /** An id let through at delivery `i` sits in the list where that delivery put it. */
  lemma {:induction false} AdmittedWhen(ds: seq<Id>, p: nat) returns (i: nat)
    requires p < |Admitted(ds)|
    ensures i < |ds| && ds[i] == Admitted(ds)[p] && |Admitted(ds[..i])| == p
  {
    var before := ds[..|ds| - 1];
    if p < |Admitted(before)| {
      i := AdmittedWhen(before, p);
      assert before[..i] == ds[..i];
    } else {
      i := |ds| - 1;
    }
  }

  /** However the backend repeats, delays and reorders its requests, a process lets each id through at most once
      exactly when at most 255 others are let through between two deliveries of it. */
  lemma {:induction false} OnceIffSpaced(ds: seq<Id>)
    ensures Distinct(Admitted(ds)) <==> Spaced(ds)
  {
    if Spaced(ds) {
      OnceIfSpaced(ds);
    }
    if Distinct(Admitted(ds)) {
      forall i, j | 0 <= i < j < |ds| && ds[i] == ds[j]
        ensures Between(ds, i, j) < DEDUP_MAX
      {
        SpacedIfOnce(ds, i, j);
      }
    }
  }

  lemma {:induction false} OnceIfSpaced(ds: seq<Id>)
    requires Spaced(ds)
    ensures Distinct(Admitted(ds))
  {
    if ds != [] {
      var n := |ds| - 1;
      SpacedPrefix(ds, n);
      OnceIfSpaced(ds[..n]);
      if ds[n] in Admitted(ds[..n]) {
        StillInWindow(ds, n);
      }
    }
  }

  /** Spacing keeps the id of a repeated delivery in the window. */
  lemma StillInWindow(ds: seq<Id>, n: nat)
    requires Spaced(ds) && n == |ds| - 1 && ds[n] in Admitted(ds[..n])
    ensures ds[n] in Window(ds[..n])
  {
    var before := ds[..n];
    var had := Admitted(before);
    var p :| 0 <= p < |had| && had[p] == ds[n];
    var i := AdmittedWhen(before, p);
    assert before[..i] == ds[..i] && before[i] == ds[i];
    AdmittedStep(ds, i);
    assert Between(ds, i, n) < DEDUP_MAX;
    WindowIsLast(before);
    var k := p - (|had| - |Window(before)|);
    assert 0 <= k;
    assert Window(before)[k] == ds[n];
  }

  /** An id delivered by then is somewhere among those let through by then. */
  lemma LetThrough(ds: seq<Id>, i: nat) returns (p: nat)
    requires i < |ds|
    ensures p < |Admitted(ds[..i + 1])| <= |Admitted(ds)| && Admitted(ds)[p] == ds[i]
  {
    var had := Admitted(ds[..i + 1]);
    AdmittedFrom(ds[..i + 1]);
    assert ds[i] in ds[..i + 1] by { assert ds[..i + 1][i] == ds[i]; }
    p :| 0 <= p < |had| && had[p] == ds[i];
    AdmittedGrows(ds, i + 1);
    assert Admitted(ds)[p] == Admitted(ds)[..|had|][p];
  }

  lemma AppendedTwice(s: seq<Id>, id: Id)
    ensures Distinct(s + [id]) ==> id !in s
  {
    if id in s {
      var p :| 0 <= p < |s| && s[p] == id;
      assert (s + [id])[p] == (s + [id])[|s|];
    }
  }

  /** What is in the window was let through lately. */
  lemma Lately(ds: seq<Id>, id: Id) returns (q: nat)
    requires id in Window(ds)
    ensures q < |Admitted(ds)| <= q + DEDUP_MAX && Admitted(ds)[q] == id
  {
    WindowIsLast(ds);
    var w := Window(ds);
    var k :| 0 <= k < |w| && w[k] == id;
    q := |Admitted(ds)| - |w| + k;
  }

  lemma DistinctPrefix(all: seq<Id>, now: seq<Id>)
    requires Distinct(all) && |now| <= |all| && all[..|now|] == now
    ensures Distinct(now)
  {
  }

  /** A delivery that comes again without being let through again was found in the window. */
  lemma FoundInWindow(ds: seq<Id>, j: nat, p: nat)
    requires Distinct(Admitted(ds)) && j < |ds|
    requires p < |Admitted(ds[..j])| && p < |Admitted(ds)| && Admitted(ds)[p] == ds[j]
    ensures |Admitted(ds[..j])| <= p + DEDUP_MAX
  {
    var now := Admitted(ds[..j]);
    assert Distinct(Admitted(ds[..j + 1])) by {
      AdmittedGrows(ds, j + 1);
      DistinctPrefix(Admitted(ds), Admitted(ds[..j + 1]));
    }
    assert Distinct(now) && now[p] == ds[j] by {
      AdmittedGrows(ds, j);
      DistinctPrefix(Admitted(ds), now);
    }
    assert ds[j] in Window(ds[..j]) by {
      AdmittedStep(ds, j);
      AppendedTwice(now, ds[j]);
    }
    var q := Lately(ds[..j], ds[j]);
    assert q == p;
  }

  lemma AdmittedMonotone(ds: seq<Id>, i: nat, j: nat)
    requires i <= j <= |ds|
    ensures |Admitted(ds[..i])| <= |Admitted(ds[..j])|
  {
    assert ds[..j][..i] == ds[..i];
    AdmittedGrows(ds[..j], i);
  }

  lemma SpacedIfOnce(ds: seq<Id>, i: nat, j: nat)
    requires Distinct(Admitted(ds)) && i < j < |ds| && ds[i] == ds[j]
    ensures Between(ds, i, j) < DEDUP_MAX
  {
    var p := LetThrough(ds, i);
    assert p < |Admitted(ds[..i + 1])| <= |Admitted(ds[..j])| by {
      AdmittedMonotone(ds, i + 1, j);
    }
    assert |Admitted(ds[..j])| <= p + DEDUP_MAX by {
      FoundInWindow(ds, j, p);
    }
  }

  // ---- The answers ----

  /** Everything the session does about one request, given the window it finds. */
  function Answer(window: seq<Id>, req: Request): seq<Action> {
    if req.id == "" then []
    else if req.command == "" then [Emit(Response(req.id, SayRejected))]
    else if req.id in window then []
    else Checked(req)
  }

  /** What it does about a request that is not a duplicate. */
  function Checked(req: Request): seq<Action> {
    if !req.signatureOk || !req.policyOk || !req.rateOk then [Emit(Response(req.id, SayRejected))]
    else if req.command == "run_script" && !req.scriptOk then [Emit(Response(req.id, SayRejected))]
    else if req.expired then [Emit(Response(req.id, SayExpired))]
    else
      [Emit(Ack(req.id))]
      + (if req.long then [Emit(Response(req.id, SayRunning))] else [])
      + [Execute(req.id), Emit(Response(req.id, if req.succeeds then SaySuccess else SayError))]
  }

  function WindowAfter(window: seq<Id>, req: Request): seq<Id> {
    if Considered(req) then Admit(window, req.id) else window
  }

  function Executions(actions: seq<Action>): seq<Id> {
    if actions == [] then []
    else (if actions[0].Execute? then [actions[0].id] else []) + Executions(actions[1..])
  }

  lemma {:induction false} ExecutionsConcat(a: seq<Action>, b: seq<Action>)
    ensures Executions(a + b) == Executions(a) + Executions(b)
  {
    if a == [] {
      assert a + b == b;
    } else {
      assert (a + b)[1..] == a[1..] + b;
      ExecutionsConcat(a[1..], b);
    }
  }

  /** The process executes a request exactly when it is well formed, new to the window and passes every check. */
  lemma AnswerExecutes(window: seq<Id>, req: Request)
    ensures Executions(Answer(window, req))
         == if Considered(req) && req.id !in window && Runs(req) then [req.id] else []
  {
    var acts := Answer(window, req);
    if Considered(req) && req.id !in window && Runs(req) {
      var lead := [Emit(Ack(req.id))] + (if req.long then [Emit(Response(req.id, SayRunning))] else []);
      var done := Emit(Response(req.id, if req.succeeds then SaySuccess else SayError));
      var tail := [Execute(req.id), done];
      assert acts == lead + tail;
      ExecutionsConcat(lead, tail);
      assert tail[1..] == [done] && [done][1..] == [];
      assert Executions([done]) == [];
      assert Executions(tail) == [req.id];
      assert lead[1..] == [] || lead[1..] == [Emit(Response(req.id, SayRunning))];
      assert Executions(lead) == [];
    } else {
      assert acts == [] || (acts[0].Emit? && acts[1..] == []);
    }
  }

  function FramesOf(actions: seq<Action>): seq<Frame> {
    if actions == [] then []
    else (if actions[0].Emit? then [actions[0].frame] else []) + FramesOf(actions[1..])
  }

  /** The last word on a request that was considered and was not a duplicate. */
  function Verdict(req: Request): Status {
    if Runs(req) then (if req.succeeds then SaySuccess else SayError)
    else if Runs(req.(expired := false)) then SayExpired
    else SayRejected
  }

  /** What the backend gets to see: silence for a request without id and for a duplicate; otherwise exactly one final
      status, which says truly what became of it, and an ack before it exactly if the command was executed. */
  lemma AnswerReports(window: seq<Id>, req: Request)
    ensures var frames := FramesOf(Answer(window, req));
      if req.id == "" || (req.command != "" && req.id in window) then frames == []
      else
        && frames != []
        && frames[|frames| - 1] == Response(req.id, if req.command == "" then SayRejected else Verdict(req))
        && (forall i :: 0 <= i < |frames| - 1 ==>
             frames[i] == if i == 0 then Ack(req.id) else Response(req.id, SayRunning))
        && |frames| == (if req.command == "" || !Runs(req) then 1 else if req.long then 3 else 2)
  {
    var acts := Answer(window, req);
    if Considered(req) && req.id !in window && Runs(req) {
      RunReports(req);
    } else if acts != [] {
      assert acts[1..] == [];
    }
  }

  lemma {:induction false} FramesConcat(a: seq<Action>, b: seq<Action>)
    ensures FramesOf(a + b) == FramesOf(a) + FramesOf(b)
  {
    if a == [] {
      assert a + b == b;
    } else {
      assert (a + b)[0] == a[0] && (a + b)[1..] == a[1..] + b;
      FramesConcat(a[1..], b);
    }
  }

  lemma FramesOne(a: Action)
    ensures FramesOf([a]) == if a.Emit? then [a.frame] else []
  {
    assert [a][1..] == [];
  }

  lemma RunReports(req: Request)
    requires Runs(req)
    ensures FramesOf(Checked(req)) ==
      [Ack(req.id)] + (if req.long then [Response(req.id, SayRunning)] else []) + [Response(req.id, Verdict(req))]
  {
    var ack, busy, end := Emit(Ack(req.id)), Emit(Response(req.id, SayRunning)), Emit(Response(req.id, Verdict(req)));
    var mid: seq<Action> := if req.long then [busy] else [];
    FramesOne(ack);
    FramesOne(busy);
    FramesOne(Execute(req.id));
    FramesOne(end);
    FramesConcat([ack], mid);
    assert [Execute(req.id), end] == [Execute(req.id)] + [end];
    FramesConcat([Execute(req.id)], [end]);
    FramesConcat([ack] + mid, [Execute(req.id), end]);
  }

  /** The ids that reach the duplicate check. */
  function Delivered(reqs: seq<Request>): seq<Id> {
    if reqs == [] then []
    else
      var req := reqs[|reqs| - 1];
      Delivered(reqs[..|reqs| - 1]) + if Considered(req) then [req.id] else []
  }

  /** The whole life of a process: the requests it gets, one after the other. */
  function Trace(reqs: seq<Request>): seq<Action> {
    if reqs == [] then []
    else
      var before := reqs[..|reqs| - 1];
      Trace(before) + Answer(Window(Delivered(before)), reqs[|reqs| - 1])
  }

  lemma DeliveredStep(reqs: seq<Request>, req: Request)
    ensures Delivered(reqs + [req]) == if Considered(req) then Delivered(reqs) + [req.id] else Delivered(reqs)
    ensures Window(Delivered(reqs + [req])) == WindowAfter(Window(Delivered(reqs)), req)
    ensures Admitted(Delivered(reqs + [req]))
         == Admitted(Delivered(reqs))
            + if Considered(req) && req.id !in Window(Delivered(reqs)) then [req.id] else []
  {
    assert (reqs + [req])[..|reqs|] == reqs;
    if Considered(req) {
      assert (Delivered(reqs) + [req.id])[..|Delivered(reqs)|] == Delivered(reqs);
    }
  }

  lemma TraceStep(reqs: seq<Request>, req: Request)
    ensures Trace(reqs + [req]) == Trace(reqs) + Answer(Window(Delivered(reqs)), req)
    ensures Executions(Trace(reqs + [req]))
         == Executions(Trace(reqs))
            + if Considered(req) && req.id !in Window(Delivered(reqs)) && Runs(req) then [req.id] else []
  {
    assert (reqs + [req])[..|reqs|] == reqs;
    ExecutionsConcat(Trace(reqs), Answer(Window(Delivered(reqs)), req));
    AnswerExecutes(Window(Delivered(reqs)), req);
  }

  lemma OneMoreAdmitted(done: seq<Id>, all: seq<Id>, id: Id, admitted: bool, runs: bool)
    requires IsSubseq(done, all)
    ensures IsSubseq(done + (if admitted && runs then [id] else []), all + if admitted then [id] else [])
  {
    var a: seq<Id> := if admitted && runs then [id] else [];
    var b: seq<Id> := if admitted then [id] else [];
    assert IsSubseq(a, b);
    SubseqConcat(done, all, a, b);
  }

  lemma {:induction false} TraceAdmits(reqs: seq<Request>)
    ensures IsSubseq(Executions(Trace(reqs)), Admitted(Delivered(reqs)))
  {
    if reqs != [] {
      var before, req := reqs[..|reqs| - 1], reqs[|reqs| - 1];
      assert reqs == before + [req];
      TraceAdmits(before);
      DeliveredStep(before, req);
      TraceStep(before, req);
      OneMoreAdmitted(Executions(Trace(before)), Admitted(Delivered(before)), req.id,
        Considered(req) && req.id !in Window(Delivered(before)), Runs(req));
    }
  }

  lemma {:induction false} SubseqDistinct(a: seq<Id>, b: seq<Id>)
    requires IsSubseq(a, b) && Distinct(b)
    ensures Distinct(a) && forall i :: 0 <= i < |a| ==> a[i] in b
    decreases |b|
  {
    if a != [] && b != [] {
      assert forall i :: 0 <= i < |b[1..]| ==> b[1..][i] == b[i + 1];
      assert forall x :: x in b[1..] ==> x in b && x != b[0];
      if a[0] == b[0] && IsSubseq(a[1..], b[1..]) {
        SubseqDistinct(a[1..], b[1..]);
        assert forall i :: 0 < i < |a| ==> a[i] == a[1..][i - 1];
      } else {
        SubseqDistinct(a, b[1..]);
      }
    }
  }

  /** Whatever requests reach a process, in whatever order and however often, it executes each id at most once as
      long as at most 255 other ids are let through between two deliveries of one id. */
  lemma AtMostOnce(reqs: seq<Request>)
    requires Spaced(Delivered(reqs))
    ensures Distinct(Executions(Trace(reqs)))
  {
    TraceAdmits(reqs);
    OnceIfSpaced(Delivered(reqs));
    SubseqDistinct(Executions(Trace(reqs)), Admitted(Delivered(reqs)));
  }

  /** If every request passes the checks, the process executes just what it lets through. */
  lemma {:induction false} ExecutesAllAdmitted(reqs: seq<Request>)
    requires forall i :: 0 <= i < |reqs| ==> Runs(reqs[i])
    ensures Executions(Trace(reqs)) == Admitted(Delivered(reqs))
  {
    if reqs != [] {
      var before, req := reqs[..|reqs| - 1], reqs[|reqs| - 1];
      assert reqs == before + [req];
      ExecutesAllAdmitted(before);
      DeliveredStep(before, req);
      TraceStep(before, req);
    }
  }

  /** So the bound is the exact one. */
  lemma AtMostOnceExactly(reqs: seq<Request>)
    requires forall i :: 0 <= i < |reqs| ==> Runs(reqs[i])
    ensures Distinct(Executions(Trace(reqs))) <==> Spaced(Delivered(reqs))
  {
    ExecutesAllAdmitted(reqs);
    OnceIffSpaced(Delivered(reqs));
  }

  // ---- The process itself ----

  class Session {
    var ids: seq<Id>       // _cmd_dedup_ids
    var known: set<Id>     // _cmd_dedup_set
    var trace: seq<Action>
    ghost var received: seq<Request>

    ghost predicate Valid()
      reads this
    {
      && ids == Window(Delivered(received))
      && known == (set id | id in ids)
      && |ids| == |known| <= 256
      && trace == Trace(received)
    }

    constructor ()
      ensures Valid() && received == []
    {
      ids, known, trace, received := [], {}, [], [];
    }

    /** `_is_duplicate_message` */
    method IsDuplicateMessage(id: Id) returns (duplicate: bool)
      requires known == (set x | x in ids) && |ids| == |known| <= DEDUP_MAX && Distinct(ids)
      modifies this`ids, this`known
      ensures duplicate == (id in old(ids))
      ensures ids == Admit(old(ids), id)
      ensures known == (set x | x in ids) && |ids| == |known| <= DEDUP_MAX
    {
      if id in known {
        return true;
      }
      if |known| >= DEDUP_MAX {
        var oldest := ids[0];
        ids := ids[1..];
        known := known - {oldest};
        assert forall x :: x in old(ids) <==> x == oldest || x in ids;
      }
      ids := ids + [id];
      known := known + {id};
      return false;
    }

    method Perform(action: Action)
      modifies this`trace
      ensures trace == old(trace) + [action]
    {
      trace := trace + [action];
    }

    /** The `command_request` branch of `client_session`. */
    method HandleRequest(req: Request)
      requires Valid()
      modifies this
      ensures Valid() && received == old(received) + [req]
      ensures trace == old(trace) + Answer(old(ids), req)
    {
      assert Distinct(ids) by { WindowIsLast(Delivered(received)); }
      if req.id != "" {
        if req.command == "" {
          Perform(Emit(Response(req.id, SayRejected)));
        } else {
          var duplicate := IsDuplicateMessage(req.id);
          if !duplicate {
            Process(req);
          }
        }
      }
      assert ids == WindowAfter(old(ids), req) && trace == old(trace) + Answer(old(ids), req);
      received := received + [req];
      assert ids == Window(Delivered(received)) by { DeliveredStep(old(received), req); }
      assert trace == Trace(received) by { TraceStep(old(received), req); }
    }

    method Process(req: Request)
      modifies this`trace
      ensures trace == old(trace) + Checked(req)
    {
      if !req.signatureOk {
        Perform(Emit(Response(req.id, SayRejected)));
        return;
      }
      if !req.policyOk {
        Perform(Emit(Response(req.id, SayRejected)));
        return;
      }
      if !req.rateOk {
        Perform(Emit(Response(req.id, SayRejected)));
        return;
      }
      if req.command == "run_script" && !req.scriptOk {
        Perform(Emit(Response(req.id, SayRejected)));
        return;
      }
      if req.expired {
        Perform(Emit(Response(req.id, SayExpired)));
        return;
      }
      Perform(Emit(Ack(req.id)));
      if req.long {
        Perform(Emit(Response(req.id, SayRunning)));
      }
      Perform(Execute(req.id));
      Perform(Emit(Response(req.id, if req.succeeds then SaySuccess else SayError)));
    }
  }
}
