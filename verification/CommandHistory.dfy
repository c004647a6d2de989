/** What the records of the backend owe to the history: each state to a request that the agent read, each transmission to
    a submission that had not run out of time. */
module CommandHistory {
  import opened Sequences
  import opened CommandRecords
  import opened AgentSession
  import opened CommandProtocol

  /** The request passes every check of the agent. */
  predicate Passes(req: Request) {
    req.signatureOk && req.policyOk && req.rateOk && (req.command != "run_script" || req.scriptOk) && !req.expired
  }

  /** `status` is true of what becomes of the request. */
  predicate IsTrueOf(req: Request, status: Status) {
    match status
    case SayRunning => Passes(req) && req.long
    case SaySuccess => Passes(req) && req.succeeds
    case SayError => Passes(req) && !req.succeeds
    case SayExpired => req.expired && Passes(req.(expired := false))
    case SayRejected => req.command == "" || !Passes(req.(expired := false))
    case _ => false
  }

  /** The agent never says anything else. */
  lemma AnswerIsTrue(window: seq<Id>, req: Request)
    ensures forall i :: 0 <= i < |Answer(window, req)| && Answer(window, req)[i].Emit? ==>
      match Answer(window, req)[i].frame
      case Ack(id) => id == req.id && Passes(req)
      case Response(id, status) => id == req.id && IsTrueOf(req, status)
  {
  }

  // ---- Reasons ----

  /** The agent read a request with this id of which `status` is true. */
  ghost predicate Came(past: seq<Step>, id: Id, status: Status) {
    exists i :: 0 <= i < |past| && past[i].AgentReads? && past[i].request.id == id && IsTrueOf(past[i].request, status)
  }

  /** The agent read a request with this id that passed its checks. */
  ghost predicate TakenUp(past: seq<Step>, id: Id) {
    exists i :: 0 <= i < |past| && past[i].AgentReads? && past[i].request.id == id && Passes(past[i].request)
  }

  /** A sweep found the command past its time. */
  ghost predicate Lapsed(past: seq<Step>, r: Record) {
    exists i :: 0 <= i < |past| && past[i].Reconnect? && (r.expiresAt.None? || r.expiresAt.value < past[i].at(r.id))
  }

  ghost predicate Founded(past: seq<Step>, f: Frame) {
    match f
    case Ack(id) => TakenUp(past, id)
    case Response(id, status) => Came(past, id, status)
  }

  /** The state of the record has its reason. */
  ghost predicate Reasoned(past: seq<Step>, r: Record) {
    match r.state
    case Completed => Came(past, r.id, SaySuccess)
    case Failed => Came(past, r.id, SayError)
    case Rejected => Came(past, r.id, SayRejected)
    case Expired => Came(past, r.id, SayExpired) || Lapsed(past, r)
    case Running => Came(past, r.id, SayRunning)
    case Acked => TakenUp(past, r.id)
    case _ => true
  }

  /** The command was submitted, and has the lifetime it was submitted with, but at least half a minute. */
  ghost predicate Submitted(past: seq<Step>, r: Record) {
    exists i :: 0 <= i < |past| && IssuedAt(past[i], r)
  }

  ghost predicate IssuedAt(step: Step, r: Record) {
    && step.Submit? && step.id == r.id && step.command == r.command && step.now == r.issuedAt
    && r.expiresAt == Some(r.issuedAt + if step.timeout.Some? && step.timeout.value > 30.0 then step.timeout.value else 30.0)
  }

  /** How often the agent read a request with this id. */
  function Reads(past: seq<Step>, id: Id): nat {
    if past == [] then 0
    else
      var n := |past| - 1;
      Reads(past[..n], id) + if past[n].AgentReads? && past[n].request.id == id then 1 else 0
  }

  /** Everything in `s` goes back to `past`. */
  ghost predicate Accounted(past: seq<Step>, s: System) {
    && (forall id :: id in s.recs ==> Reasoned(past, s.recs[id]) && Submitted(past, s.recs[id]))
    && (forall i :: 0 <= i < |s.up| ==> Founded(past, s.up[i]))
    && (forall i :: 0 <= i < |s.job| && s.job[i].Emit? ==> Founded(past, s.job[i].frame))
    && (forall id :: Reads(past, id) + Times(id, s.down) <= Sends(s.wire, id))
  }

  // ---- Reasons do not go away ----

  lemma CameMore(past: seq<Step>, step: Step, id: Id, status: Status)
    requires Came(past, id, status)
    ensures Came(past + [step], id, status)
  {
    var i :| 0 <= i < |past| && past[i].AgentReads? && past[i].request.id == id && IsTrueOf(past[i].request, status);
    assert (past + [step])[i] == past[i];
  }

  lemma TakenUpMore(past: seq<Step>, step: Step, id: Id)
    requires TakenUp(past, id)
    ensures TakenUp(past + [step], id)
  {
    var i :| 0 <= i < |past| && past[i].AgentReads? && past[i].request.id == id && Passes(past[i].request);
    assert (past + [step])[i] == past[i];
  }

  lemma FoundedMore(past: seq<Step>, step: Step, f: Frame)
    requires Founded(past, f)
    ensures Founded(past + [step], f)
  {
    match f
    case Ack(id) => TakenUpMore(past, step, id);
    case Response(id, status) => CameMore(past, step, id, status);
  }

  lemma ReasonedMore(past: seq<Step>, step: Step, r: Record)
    requires Reasoned(past, r)
    ensures Reasoned(past + [step], r)
  {
    match r.state
    case Completed => CameMore(past, step, r.id, SaySuccess);
    case Failed => CameMore(past, step, r.id, SayError);
    case Rejected => CameMore(past, step, r.id, SayRejected);
    case Expired =>
      if Came(past, r.id, SayExpired) {
        CameMore(past, step, r.id, SayExpired);
      } else {
        var i :| 0 <= i < |past| && past[i].Reconnect? && (r.expiresAt.None? || r.expiresAt.value < past[i].at(r.id));
        assert (past + [step])[i] == past[i];
      }
    case Running => CameMore(past, step, r.id, SayRunning);
    case Acked => TakenUpMore(past, step, r.id);
    case _ =>
  }

  lemma SubmittedMore(past: seq<Step>, step: Step, r: Record, after: Record)
    requires Submitted(past, r)
    requires after.id == r.id && after.command == r.command && after.issuedAt == r.issuedAt && after.expiresAt == r.expiresAt
    ensures Submitted(past + [step], after)
  {
    var i :| 0 <= i < |past| && IssuedAt(past[i], r);
    assert IssuedAt((past + [step])[i], after);
  }

  lemma ReadsMore(past: seq<Step>, step: Step, id: Id)
    ensures Reads(past + [step], id) == Reads(past, id) + if step.AgentReads? && step.request.id == id then 1 else 0
  {
    assert (past + [step])[..|past|] == past;
  }

  // ---- Every step gives its reasons ----

  lemma AckFounds(past: seq<Step>, req: Request)
    requires Passes(req)
    ensures TakenUp(past + [AgentReads(req)], req.id)
  {
    var more := past + [AgentReads(req)];
    assert more[|past|] == AgentReads(req);
  }

  lemma ReadFounds(past: seq<Step>, req: Request, status: Status)
    requires IsTrueOf(req, status)
    ensures Came(past + [AgentReads(req)], req.id, status)
  {
    var more := past + [AgentReads(req)];
    assert more[|past|] == AgentReads(req);
  }

  lemma JobFounded(past: seq<Step>, window: seq<Id>, req: Request, i: nat)
    requires i < |Answer(window, req)| && Answer(window, req)[i].Emit?
    ensures Founded(past + [AgentReads(req)], Answer(window, req)[i].frame)
  {
    AnswerIsTrue(window, req);
    match Answer(window, req)[i].frame
    case Ack(_) => AckFounds(past, req);
    case Response(_, status) => ReadFounds(past, req, status);
  }

  /** The channel to the backend and the agent's hands. */
  lemma FramesFounded(past: seq<Step>, s: System, step: Step, agent: AgentId)
    requires Accounted(past, s) && Enabled(s, step, agent)
    ensures var t, more := Do(s, step, agent), past + [step];
      && (forall i :: 0 <= i < |t.up| ==> Founded(more, t.up[i]))
      && (forall i :: 0 <= i < |t.job| && t.job[i].Emit? ==> Founded(more, t.job[i].frame))
  {
    var t, more := Do(s, step, agent), past + [step];
    forall i | 0 <= i < |s.up| ensures Founded(more, s.up[i]) {
      FoundedMore(past, step, s.up[i]);
    }
    forall i | 0 <= i < |s.job| && s.job[i].Emit? ensures Founded(more, s.job[i].frame) {
      FoundedMore(past, step, s.job[i].frame);
    }
    if step.AgentReads? {
      forall i | 0 <= i < |t.job| && t.job[i].Emit? ensures Founded(more, t.job[i].frame) {
        JobFounded(past, s.window, step.request, i);
      }
    }
  }

  /** A record that a frame has moved. */
  lemma HeardReasoned(past: seq<Step>, r: Record, f: Frame)
    requires Founded(past, f) && f.id == r.id && Says(f).Some?
    ensures Reasoned(past, r.(state := Says(f).value))
  {
  }

  /** One record through one step. */
  lemma RecordAccounted(past: seq<Step>, s: System, step: Step, agent: AgentId, id: Id)
    requires Accounted(past, s) && Inv(s, agent) && Enabled(s, step, agent) && id in Do(s, step, agent).recs
    ensures var r := Do(s, step, agent).recs[id];
      Reasoned(past + [step], r) && Submitted(past + [step], r)
  {
    var r := Do(s, step, agent).recs[id];
    if step.Submit? && id == step.id {
      assert IssuedAt((past + [step])[|past|], r);
    } else if step.Reconnect? {
      SweptAccounted(past, s, step, agent, id);
    } else {
      SubmittedMore(past, step, s.recs[id], r);
      ReasonedMore(past, step, s.recs[id]);
      if step.BackendReads? && s.up[0].id == id && Says(s.up[0]).Some? {
        FoundedMore(past, step, s.up[0]);
        HeardReasoned(past + [step], s.recs[id], s.up[0]);
      }
    }
  }

  lemma SweptAccounted(past: seq<Step>, s: System, step: Step, agent: AgentId, id: Id)
    requires Accounted(past, s) && Inv(s, agent) && Enabled(s, step, agent) && step.Reconnect?
    requires id in Do(s, step, agent).recs
    ensures var r := Do(s, step, agent).recs[id];
      Reasoned(past + [step], r) && Submitted(past + [step], r)
  {
    var r, more := Do(s, step, agent).recs[id], past + [step];
    SweepByTime(s.recs, step.todo, step.at, step.through);
    SubmittedMore(past, step, s.recs[id], r);
    ReasonedMore(past, step, s.recs[id]);
    if r.state == Expired && s.recs[id].state != Expired {
      assert more[|past|] == step && Lapsed(more, r);
    }
  }

  /** Each send is read at most once. */
  lemma ReadsCounted(past: seq<Step>, s: System, step: Step, agent: AgentId, id: Id)
    requires Accounted(past, s) && Inv(s, agent) && Enabled(s, step, agent)
    ensures Reads(past + [step], id) + Times(id, Do(s, step, agent).down) <= Sends(Do(s, step, agent).wire, id)
  {
    var t := Do(s, step, agent);
    ReadsMore(past, step, id);
    if step.Submit? && t.down != s.down {
      TimesConcat(id, s.down, [step.id]);
      SendsConcat(s.wire, [Transmission(step.id, step.now)], id);
      assert [step.id][1..] == [] && [Transmission(step.id, step.now)][1..] == [];
    } else if step.Reconnect? {
      SendsConcat(s.wire, Stamped(t.down, step.at), id);
      SendsStamped(t.down, step.at, id);
    }
  }

  lemma StepAccounted(past: seq<Step>, s: System, step: Step, agent: AgentId)
    requires Accounted(past, s) && Inv(s, agent) && Enabled(s, step, agent)
    ensures Accounted(past + [step], Do(s, step, agent))
  {
    var t := Do(s, step, agent);
    FramesFounded(past, s, step, agent);
    forall id | id in t.recs ensures Reasoned(past + [step], t.recs[id]) && Submitted(past + [step], t.recs[id]) {
      RecordAccounted(past, s, step, agent, id);
    }
    forall id ensures Reads(past + [step], id) + Times(id, t.down) <= Sends(t.wire, id) {
      ReadsCounted(past, s, step, agent, id);
    }
  }

  lemma {:induction false} RunAccounted(run: seq<System>, steps: seq<Step>, agent: AgentId, n: nat)
    requires Run(run, steps, agent) && n < |run|
    ensures Accounted(steps[..n], run[n])
  {
    hide Inv, Do, Enabled;
    if n > 0 {
      RunAccounted(run, steps, agent, n - 1);
      RunInv(run, steps, agent, n - 1);
      StepAccounted(steps[..n - 1], run[n - 1], steps[n - 1], agent);
      assert steps[..n] == steps[..n - 1] + [steps[n - 1]];
    }
  }

  // ---- What follows ----

  /** Over every run the agent reads at most one request of an id. */
  lemma ReadOnce(run: seq<System>, steps: seq<Step>, agent: AgentId, i: nat, j: nat)
    requires Run(run, steps, agent) && i < j < |steps|
    requires steps[i].AgentReads? && steps[j].AgentReads?
    ensures steps[i].request.id != steps[j].request.id
  {
    var id := steps[j].request.id;
    AtMostOneRead(run, steps, agent, j + 1, id);
    if steps[i].request.id == id {
      ReadsAtLeast(steps, i, j, id);
    }
  }

  lemma AtMostOneRead(run: seq<System>, steps: seq<Step>, agent: AgentId, n: nat, id: Id)
    requires Run(run, steps, agent) && n < |run|
    ensures Reads(steps[..n], id) <= 1
  {
    RunAccounted(run, steps, agent, n);
    RunInv(run, steps, agent, n);
    SentOnce(run[n], agent, id);
  }

  lemma SentOnce(s: System, agent: AgentId, id: Id)
    requires Inv(s, agent)
    ensures Sends(s.wire, id) <= 1
  {
    assert Sound(s, id);
  }

  lemma {:induction false} ReadsMonotone(steps: seq<Step>, i: nat, j: nat, id: Id)
    requires i <= j <= |steps|
    ensures Reads(steps[..i], id) <= Reads(steps[..j], id)
    decreases j - i
  {
    if i < j {
      ReadsMonotone(steps, i, j - 1, id);
      assert steps[..j][..j - 1] == steps[..j - 1];
    }
  }

  lemma ReadsAtLeast(steps: seq<Step>, i: nat, j: nat, id: Id)
    requires i < j < |steps|
    requires steps[i].AgentReads? && steps[i].request.id == id && steps[j].AgentReads? && steps[j].request.id == id
    ensures Reads(steps[..j + 1], id) >= 2
  {
    assert steps[..i + 1][..i] == steps[..i] && steps[..j + 1][..j] == steps[..j];
    ReadsMonotone(steps, i + 1, j, id);
  }

  lemma RecordReasoned(run: seq<System>, steps: seq<Step>, agent: AgentId, n: nat, id: Id)
    requires Run(run, steps, agent) && n < |run| && id in run[n].recs
    ensures run[n].recs[id].id == id
    ensures Reasoned(steps[..n], run[n].recs[id]) && Submitted(steps[..n], run[n].recs[id])
  {
    hide Sound, ForOne, InTime;
    RunAccounted(run, steps, agent, n);
    RunInv(run, steps, agent, n);
  }

  /** What a record says is what became of the request with its id: it is completed only if that passed every check and
      succeeded, failed only if it passed and did not succeed, rejected only if a check but the last said so, and expired
      only if the last did, or a sweep found the command past its time. */
  lemma RecordedTruly(run: seq<System>, steps: seq<Step>, agent: AgentId, n: nat, id: Id, i: nat)
    requires Run(run, steps, agent) && n < |run| && id in run[n].recs
    requires i < n && steps[i].AgentReads? && steps[i].request.id == id
    ensures var req, r := steps[i].request, run[n].recs[id];
      && (r.state == Completed ==> Passes(req) && req.succeeds)
      && (r.state == Failed ==> Passes(req) && !req.succeeds)
      && (r.state == Running || r.state == Acked ==> Passes(req))
      && (r.state == Rejected ==> req.command == "" || !Passes(req.(expired := false)))
      && (r.state == Expired ==> (req.expired && Passes(req.(expired := false))) || Lapsed(steps[..n], r))
  {
    hide Enabled, Do;
    RecordReasoned(run, steps, agent, n, id);
    forall k | 0 <= k < n && steps[..n][k].AgentReads? && steps[..n][k].request.id == id ensures k == i {
      if k < i {
        ReadOnce(run, steps, agent, k, i);
      } else if i < k {
        ReadOnce(run, steps, agent, i, k);
      }
    }
  }

  /** And such a request was read. */
  lemma RecordedOfARead(run: seq<System>, steps: seq<Step>, agent: AgentId, n: nat, id: Id) returns (i: nat)
    requires Run(run, steps, agent) && n < |run| && id in run[n].recs
    requires var r := run[n].recs[id];
      r.state != Pending && r.state != Sent && (r.state == Expired ==> !Lapsed(steps[..n], r))
    ensures i < n && steps[i].AgentReads? && steps[i].request.id == id
  {
    hide Enabled, Do;
    RecordReasoned(run, steps, agent, n, id);
    i :| 0 <= i < n && steps[..n][i].AgentReads? && steps[..n][i].request.id == id;
  }

  /** Over every run, each transmission belongs to a submission, and comes no later than the timeout of that, or half a
      minute, after it. */
  lemma NothingStale(run: seq<System>, steps: seq<Step>, agent: AgentId, n: nat, k: nat) returns (i: nat)
    requires Run(run, steps, agent) && n < |run| && k < |run[n].wire|
    ensures i < n && steps[i].Submit? && steps[i].id == run[n].wire[k].id
    ensures run[n].wire[k].at - steps[i].now
      <= if steps[i].timeout.Some? && steps[i].timeout.value > 30.0 then steps[i].timeout.value else 30.0
  {
    var id := run[n].wire[k].id;
    RunAccounted(run, steps, agent, n);
    RunInv(run, steps, agent, n);
    assert Submitted(steps[..n], run[n].recs[id]);
    i :| 0 <= i < n && IssuedAt(steps[..n][i], run[n].recs[id]);
  }

  /** Over every run, what is final stays as it is. */
  lemma FinalStays(run: seq<System>, steps: seq<Step>, agent: AgentId, i: nat, j: nat, id: Id)
    requires Run(run, steps, agent) && i <= j < |run| && id in run[i].recs
    requires run[i].recs[id].state in {Completed, Failed, Expired, Rejected}
    ensures id in run[j].recs && run[j].recs[id].state == run[i].recs[id].state
  {
    LifecycleMonotone(run, steps, agent, i, j);
    ClimbsMeans(run[i].recs, run[j].recs, id);
  }
}
