/** The connection manager and the agent's session at work together: their methods take the steps of the protocol, so what
    holds over every run of the protocol holds of them. */
module CommandDeployment {
  import opened Sequences
  import opened CommandRecords
  import opened CommandQueues
  import opened ConnectionManagers
  import opened AgentSession
  import opened CommandProtocol
  import opened CommandHistory

  /** The records as the protocol sees them: without the results. */
  function Core(recs: Records): Records {
    map id | id in recs :: recs[id].(reply := None)
  }

  lemma CoreMarked(recs: Records, id: Id, state: State)
    ensures Core(Marked(recs, id, state)) == Marked(Core(recs), id, state)
  {
  }

  lemma CoreMarkedSent(recs: Records, id: Id)
    ensures Core(MarkedSent(recs, id)) == MarkedSent(Core(recs), id)
  {
  }

  lemma CoreUpdated(recs: Records, id: Id, update: Update)
    ensures Core(Updated(recs, id, update)) == Core(recs)
  {
  }

  lemma CoreHeard(recs: Records, f: Frame)
    ensures Core(Heard(recs, f)) == Heard(Core(recs), f)
  {
    if Says(f).Some? {
      CoreMarked(recs, f.id, Says(f).value);
    }
  }

  lemma {:induction false} CoreSweep(recs: Records, todo: seq<Id>, at: Readings, ok: set<Id>)
    ensures var (after, sent) := Sweep(recs, todo, at, ok);
      Sweep(Core(recs), todo, at, ok) == (Core(after), sent)
    decreases |todo|
  {
    if todo != [] {
      var id := todo[0];
      CoreMarked(recs, id, Expired);
      CoreMarkedSent(recs, id);
      var next :=
        if id !in recs then recs
        else if IsExpired(recs[id].expiresAt, at(id)) then Marked(recs, id, Expired)
        else if recs[id].state != Pending || id !in ok then recs
        else MarkedSent(recs, id);
      CoreSweep(next, todo[1..], at, ok);
    }
  }

  lemma CoreClimbs(a: Records, b: Records)
    requires Climbs(Core(a), Core(b))
    ensures Climbs(a, b)
  {
    forall id | id in a ensures id in b && (b[id].state == a[id].state || Later(a[id].state, b[id].state)) {
      assert id in Core(a) && Core(a)[id].state == a[id].state;
      assert id in Core(b) && Core(b)[id].state == b[id].state;
    }
  }

  // ---- The agent's turn ----

  /** All the actions in hand, one after the other. */
  function AllActed(s: System): System
    decreases |s.job|
  {
    if s.job == [] then s else AllActed(Do(s, AgentActs, ""))
  }

  lemma {:induction false} AllActedSound(s: System, agent: AgentId)
    requires Inv(s, agent) && s.connected && InTime(s, s.recs)
    ensures Inv(AllActed(s), agent) && InTime(AllActed(s), s.recs)
    ensures AllActed(s) == s.(job := [], up := s.up + FramesOf(s.job), executed := s.executed + Executions(s.job))
    decreases |s.job|
  {
    if s.job == [] {
      assert s.up + [] == s.up && s.executed + [] == s.executed;
    } else {
      var t := Do(s, AgentActs, agent);
      assert t == Do(s, AgentActs, "");
      StepKeepsInv(s, AgentActs, agent);
      StepInTime(s, AgentActs, agent);
      AllActedSound(t, agent);
      if s.job[0].Emit? {
        ConcatAssoc(s.up, [s.job[0].frame], FramesOf(s.job[1..]));
        assert [] + Executions(s.job[1..]) == Executions(s.job[1..]);
      } else {
        ConcatAssoc(s.executed, [s.job[0].id], Executions(s.job[1..]));
        assert [] + FramesOf(s.job[1..]) == FramesOf(s.job[1..]);
      }
    }
  }

  lemma {:induction false} AllActedAccounted(past: seq<Step>, s: System, agent: AgentId) returns (past': seq<Step>)
    requires Inv(s, agent) && s.connected && Accounted(past, s)
    ensures Accounted(past', AllActed(s)) && |past| <= |past'| && past'[..|past|] == past
    ensures forall i :: |past| <= i < |past'| ==> past'[i] == AgentActs
    decreases |s.job|
  {
    past' := past;
    if s.job != [] {
      OneActed(past, s, agent);
      past' := AllActedAccounted(past + [AgentActs], Do(s, AgentActs, ""), agent);
      LongerStill(past, past');
    }
  }

  lemma OneActed(past: seq<Step>, s: System, agent: AgentId)
    requires Inv(s, agent) && s.connected && s.job != [] && Accounted(past, s)
    ensures var t := Do(s, AgentActs, "");
      Inv(t, agent) && t.connected && Accounted(past + [AgentActs], t) && |t.job| < |s.job|
  {
    assert Do(s, AgentActs, agent) == Do(s, AgentActs, "");
    StepKeepsInv(s, AgentActs, agent);
    StepAccounted(past, s, AgentActs, agent);
  }

  lemma LongerStill(past: seq<Step>, longer: seq<Step>)
    requires |past| < |longer| && longer[..|past| + 1] == past + [AgentActs]
    ensures longer[..|past|] == past && longer[|past|] == AgentActs
  {
    assert longer[..|past|] == longer[..|past| + 1][..|past|];
    assert longer[|past|] == longer[..|past| + 1][|past|];
  }

  lemma CoreWorkList(recs: Records, agent: AgentId, todo: seq<Id>)
    requires WorkList(recs, agent, todo)
    ensures WorkList(Core(recs), agent, todo)
  {
  }

  lemma SessionNext(past: seq<Request>, req: Request)
    ensures Window(Delivered(past + [req])) == WindowAfter(Window(Delivered(past)), req)
    ensures Executions(Trace(past + [req])) == Executions(Trace(past)) + Executions(Answer(Window(Delivered(past)), req))
  {
    DeliveredStep(past, req);
    TraceStep(past, req);
    ExecutionsConcat(Trace(past), Answer(Window(Delivered(past)), req));
  }

  // ---- The deployment ----

  /** The protocol stands where a manager and a session stand. */
  ghost predicate Stands(past: seq<Step>, s: System, agent: AgentId, online: bool, recs: Records, wire: seq<Transmission>, window: seq<Id>,
                         executed: seq<Id>) {
    && Inv(s, agent) && InTime(s, s.recs) && Accounted(past, s)
    && s.recs == Core(recs) && s.connected == online && s.wire == wire
    && s.window == window && s.job == [] && s.executed == executed
  }

  class Deployment {
    const agent: AgentId
    var manager: ConnectionManager
    var session: Session
    ghost var past: seq<Id>      // what earlier processes of the agent executed
    ghost var system: System     // where the protocol stands; the channels are here alone
    ghost var history: seq<Step> // the steps that led there

    ghost predicate Valid()
      reads this, manager, manager.queue, session
    {
      && manager.Valid() && session.Valid()
      && Stands(history, system, agent, agent in manager.online, manager.queue.records, manager.wire, session.ids,
                past + Executions(session.trace))
    }

    constructor (agent: AgentId, manager: ConnectionManager, session: Session)
      requires manager.Valid() && manager.queue.records == map[] && manager.online == {} && manager.wire == []
      requires session.Valid() && session.received == []
      ensures Valid() && this.agent == agent && this.manager == manager && this.session == session
      ensures past == []
    {
      this.agent, this.manager, this.session, past, history := agent, manager, session, [], [];
      system := System(map[], false, [], [], [], [], [], []);
      new;
      assert forall id :: Ahead(system, id) == [];
      assert Core(map[]) == map[];
    }

    /** What one step of the protocol keeps. */
    lemma Advance(past: seq<Step>, s: System, step: Step, before: Records, after: Records)
      requires Inv(s, agent) && InTime(s, s.recs) && Accounted(past, s) && Enabled(s, step, agent)
      requires s.recs == Core(before) && Do(s, step, agent).recs == Core(after)
      ensures Inv(Do(s, step, agent), agent) && InTime(Do(s, step, agent), Do(s, step, agent).recs)
      ensures Accounted(past + [step], Do(s, step, agent))
      ensures Climbs(before, after)
    {
      StepAccounted(past, s, step, agent);
      StepKeepsInv(s, step, agent);
      StepInTime(s, step, agent);
      StepClimbs(s, step, agent);
      CoreClimbs(before, after);
    }

    /** What the backend believes of a command is what the agent did and what came of it, it went out at most once and
        within its lifetime, and `attempts` says whether it did. */
    lemma Believes(id: Id)
      requires Valid() && id in manager.queue.records
      ensures var r := manager.queue.records[id];
        var times := Times(id, past + Executions(session.trace));
        && times <= 1
        && (r.state == Completed || r.state == Failed ==> times == 1)
        && (r.state == Pending || r.state == Rejected ==> times == 0)
        && r.attempts == Sends(manager.wire, id) <= 1
        && r.expiresAt.Some? && r.expiresAt.value >= r.issuedAt + 30.0
        && forall i :: 0 <= i < |manager.wire| && manager.wire[i].id == id ==> manager.wire[i].at <= r.expiresAt.value
      ensures var r := manager.queue.records[id];
        && (r.state == Completed ==> Came(history, id, SaySuccess))
        && (r.state == Failed ==> Came(history, id, SayError))
        && (r.state == Rejected ==> Came(history, id, SayRejected))
        && (r.state == Expired ==> Came(history, id, SayExpired) || Lapsed(history, r))
    {
      assert Sound(system, id) && id in system.recs;
      assert Reasoned(history, system.recs[id]) && Submitted(history, system.recs[id]);
    }

    /** A command for the agent: the step `Submit`, or nothing if it is refused. */
    method Submit(command: string, forbidden: bool, keyOk: bool, withinLimits: bool, timeout: real, uuid: Id, now: real,
                  sendOk: bool, saveOk: bool) returns (outcome: Outcome)
      requires Valid() && uuid !in manager.queue.records && uuid != ""
      modifies this`system, this`history, manager, manager.queue
      ensures Valid() && Climbs(old(manager.queue.records), manager.queue.records)
      ensures old(manager.queue.Saved()) && saveOk ==> manager.queue.Saved()
      ensures system == if outcome.Queued? || outcome.Awaiting?
        then Do(old(system), CommandProtocol.Submit(uuid, command, Some(Clamped(timeout)), now, sendOk), agent) else old(system)
    {
      ghost var recs := manager.queue.records;
      ghost var step := CommandProtocol.Submit(uuid, command, Some(Clamped(timeout)), now, sendOk);
      outcome := Ask(command, forbidden, keyOk, withinLimits, timeout, uuid, now, sendOk, saveOk, step);
      if outcome.Queued? || outcome.Awaiting? {
        Entered(history, system, step, recs, manager.queue.records);
        system, history := Do(system, step, agent), history + [step];
      }
    }

    /** The manager's part of it. */
    method Ask(command: string, forbidden: bool, keyOk: bool, withinLimits: bool, timeout: real, uuid: Id, now: real,
               sendOk: bool, saveOk: bool, ghost step: Step) returns (outcome: Outcome)
      requires manager.Valid() && uuid !in manager.queue.records
      requires step == CommandProtocol.Submit(uuid, command, Some(Clamped(timeout)), now, sendOk)
      modifies manager`wire, manager.queue
      ensures manager.Valid() && (old(manager.queue.Saved()) && saveOk ==> manager.queue.Saved())
      ensures var recs := old(manager.queue.records);
        var known := recs[uuid := NewRecord(uuid, agent, command, step.timeout, now)];
        var entered, sent := outcome.Queued? || outcome.Awaiting?, agent in manager.online && sendOk;
        && manager.queue.records == (if !entered then recs else if sent then MarkedSent(known, uuid) else known)
        && manager.wire == if entered && sent then old(manager.wire) + [Transmission(uuid, now)] else old(manager.wire)
    {
      outcome := manager.SendCommand(agent, command, forbidden, keyOk, withinLimits, timeout, uuid, now, sendOk, saveOk);
    }

    lemma Entered(past: seq<Step>, s: System, step: Step, recs: Records, after: Records)
      requires Stands(past, s, agent, s.connected, recs, s.wire, s.window, s.executed)
      requires step.Submit? && step.id !in recs && step.id != ""
      requires var known := recs[step.id := NewRecord(step.id, agent, step.command, step.timeout, step.now)];
        after == if s.connected && step.sendOk then MarkedSent(known, step.id) else known
      ensures Stands(past + [step], Do(s, step, agent), agent, s.connected, after,
        if s.connected && step.sendOk then s.wire + [Transmission(step.id, step.now)] else s.wire, s.window, s.executed)
      ensures Climbs(recs, after)
    {
      CoreSubmit(recs, NewRecord(step.id, agent, step.command, step.timeout, step.now));
      Advance(past, s, step, recs, after);
    }

    /** The agent connects: the step `Reconnect`. */
    method Reconnect(at: Readings, keyOk: bool, through: set<Id>, saveOk: bool) returns (ghost step: Step)
      requires Valid()
      modifies this`system, this`history, manager, manager.queue`records, manager.queue`files
      ensures Valid() && Climbs(old(manager.queue.records), manager.queue.records)
      ensures old(manager.queue.Saved()) && saveOk ==> manager.queue.Saved()
      ensures step.Reconnect? && step.at == at && step.through == (if keyOk then through else {})
      ensures Enabled(old(system), step, agent) && system == Do(old(system), step, agent)
    {
      ghost var recs := manager.queue.records;
      step := Welcome(at, keyOk, through, saveOk);
      Reconnected(history, system, step, recs, manager.queue.records);
      system, history := Do(system, step, agent), history + [step];
    }

    lemma Reconnected(past: seq<Step>, s: System, step: Step, recs: Records, after: Records)
      requires Stands(past, s, agent, s.connected, recs, s.wire, s.window, s.executed)
      requires step.Reconnect? && Enabled(s, step, agent) && after == Sweep(recs, step.todo, step.at, step.through).0
      ensures Stands(past + [step], Do(s, step, agent), agent, true, after,
        s.wire + Stamped(Sweep(recs, step.todo, step.at, step.through).1, step.at), s.window, s.executed)
      ensures Climbs(recs, after)
    {
      CoreReconnect(s, step, recs, after, agent);
      Advance(past, s, step, recs, after);
    }

    /** The manager's part of it. */
    method Welcome(at: Readings, keyOk: bool, through: set<Id>, saveOk: bool) returns (ghost step: Step)
      requires manager.Valid()
      modifies manager, manager.queue`records, manager.queue`files
      ensures manager.Valid() && manager.online == old(manager.online) + {agent}
      ensures old(manager.queue.Saved()) && saveOk ==> manager.queue.Saved()
      ensures step.Reconnect? && step.at == at && step.through == (if keyOk then through else {})
      ensures WorkList(Core(old(manager.queue.records)), agent, step.todo)
      ensures manager.queue.records == Sweep(old(manager.queue.records), step.todo, step.at, step.through).0
      ensures manager.wire
           == old(manager.wire) + Stamped(Sweep(old(manager.queue.records), step.todo, step.at, step.through).1, step.at)
    {
      ghost var recs := manager.queue.records;
      manager.RegisterConnection(agent);
      ghost var todo := manager.DispatchPending(agent, at, keyOk, through, saveOk);
      step := CommandProtocol.Reconnect(todo, at, if keyOk then through else {});
      CoreWorkList(recs, agent, todo);
    }

    /** The session ends: the step `Disconnect`. */
    method Disconnect()
      requires Valid()
      modifies this`system, this`history, manager
      ensures Valid() && manager.queue.records == old(manager.queue.records)
      ensures old(manager.queue.Saved()) ==> manager.queue.Saved()
      ensures system == Do(old(system), CommandProtocol.Disconnect, agent)
    {
      manager.Disconnect(agent);
      Advance(history, system, CommandProtocol.Disconnect, manager.queue.records, manager.queue.records);
      system, history := Do(system, CommandProtocol.Disconnect, agent), history + [CommandProtocol.Disconnect];
    }

    /** The backend's process starts again, and finds every record on disk as it was: the step `Disconnect` once more. */
    method RestartBackend()
      requires Valid() && manager.queue.Saved()
      modifies this`manager, this`system, this`history
      ensures Valid() && fresh(manager) && fresh(manager.queue) && manager.queue.Saved()
      ensures manager.queue.records == old(manager.queue.records) && manager.wire == old(manager.wire)
      ensures system == Do(old(system), CommandProtocol.Disconnect, agent)
    {
      ghost var recs := manager.queue.records;
      var queue := new CommandQueue(manager.queue.files);
      manager := new ConnectionManager(queue, manager.wire);
      Advance(history, system, CommandProtocol.Disconnect, recs, recs);
      system, history := Do(system, CommandProtocol.Disconnect, agent), history + [CommandProtocol.Disconnect];
    }

    /** The agent's process starts again: the step `AgentRestart`. */
    method RestartAgent()
      requires Valid()
      modifies this`session, this`past, this`system, this`history, manager
      ensures Valid() && manager.queue.records == old(manager.queue.records)
      ensures old(manager.queue.Saved()) ==> manager.queue.Saved()
      ensures past == old(past) + Executions(old(session.trace))
    {
      manager.Disconnect(agent);
      Advance(history, system, AgentRestart, manager.queue.records, manager.queue.records);
      past := system.executed;
      system, history := Do(system, AgentRestart, agent), history + [AgentRestart];
      session := new Session();
      assert past + [] == past;
    }

    /** The agent reads the next request and works it off: `AgentReads`, and `AgentActs` until nothing is left to do. */
    method AgentTurn(req: Request)
      requires Valid() && system.connected && system.down != [] && req.id == system.down[0]
      modifies this`system, this`history, session
      ensures Valid() && session == old(session)
      ensures system == AllActed(Do(old(system), AgentReads(req), agent))
      ensures session.trace == old(session.trace) + Answer(old(session.ids), req)
    {
      ghost var longer := TurnSound(history, system, req, manager.queue.records, past, session.trace);
      WorkOff(req);
      system, history := AllActed(Do(system, AgentReads(req), agent)), longer;
    }

    /** The session's part of it. */
    method WorkOff(req: Request)
      requires session.Valid() && manager.Valid()
      modifies session
      ensures session.Valid() && manager.Valid()
      ensures session.ids == WindowAfter(old(session.ids), req)
      ensures session.trace == old(session.trace) + Answer(old(session.ids), req)
      ensures Executions(session.trace) == Executions(old(session.trace)) + Executions(Answer(old(session.ids), req))
    {
      SessionNext(session.received, req);
      session.HandleRequest(req);
    }

    lemma TurnSound(steps: seq<Step>, s: System, req: Request, recs: Records, past: seq<Id>, trace: seq<Action>)
      returns (longer: seq<Step>)
      requires Stands(steps, s, agent, s.connected, recs, s.wire, s.window, past + Executions(trace))
      requires Enabled(s, AgentReads(req), agent)
      ensures Stands(longer, AllActed(Do(s, AgentReads(req), agent)), agent, s.connected, recs, s.wire, WindowAfter(s.window, req),
        past + (Executions(trace) + Executions(Answer(s.window, req))))
    {
      StepKeepsInv(s, AgentReads(req), agent);
      StepInTime(s, AgentReads(req), agent);
      StepAccounted(steps, s, AgentReads(req), agent);
      longer := AllActedAccounted(steps + [AgentReads(req)], Do(s, AgentReads(req), agent), agent);
      AllActedSound(Do(s, AgentReads(req), agent), agent);
      ConcatAssoc(past, Executions(trace), Executions(Answer(s.window, req)));
    }

    /** The backend handles the next frame: the step `BackendReads`. */
    method BackendTurn(frame: Frame, result: Option<string>, saveOk: bool)
      requires Valid() && system.connected && system.up != [] && frame == system.up[0]
      modifies this`system, this`history, manager.queue`records, manager.queue`files
      ensures Valid() && Climbs(old(manager.queue.records), manager.queue.records)
      ensures old(manager.queue.Saved()) && saveOk ==> manager.queue.Saved()
      ensures system == Do(old(system), BackendReads, agent)
    {
      ghost var recs := manager.queue.records;
      manager.HandleAgentMessage(frame, result, saveOk);
      CoreHeard(recs, frame);
      CoreUpdated(Heard(recs, frame), frame.id, if frame.Response? && Says(frame).Some? then Reply(result) else Nothing);
      Advance(history, system, BackendReads, recs, manager.queue.records);
      system, history := Do(system, BackendReads, agent), history + [BackendReads];
    }
  }

  lemma CoreReconnect(s: System, step: Step, recs: Records, after: Records, agent: AgentId)
    requires step.Reconnect? && s.recs == Core(recs) && after == Sweep(recs, step.todo, step.at, step.through).0
    ensures var t := Do(s, step, agent);
      && t.recs == Core(after) && t.connected && t.window == s.window && t.job == [] && t.executed == s.executed
      && t.wire == s.wire + Stamped(Sweep(recs, step.todo, step.at, step.through).1, step.at)
  {
    CoreSweep(recs, step.todo, step.at, step.through);
  }

  lemma CoreSubmit(recs: Records, r: Record)
    requires r.reply == None && r.id !in recs
    ensures Core(recs[r.id := r]) == Core(recs)[r.id := r]
    ensures Core(MarkedSent(recs[r.id := r], r.id)) == MarkedSent(Core(recs)[r.id := r], r.id)
  {
    CoreMarkedSent(recs[r.id := r], r.id);
  }

  /** If the save of a sent mark fails, a restarted backend finds the command pending and sends it again. */
  method SentTwice(agent: AgentId, id: Id) returns (before: CommandQueue, after: CommandQueue, wire: seq<Transmission>)
    requires id != ""
    ensures id in before.records && before.records[id].state == Sent && !before.Saved()
    ensures id in after.records && after.records[id].state == Sent
    ensures Sends(wire, id) == 2
  {
    before := new CommandQueue(map[]);
    var record := before.Enqueue(agent, "status", None, Some(id), id, 0.0, true);
    var files := before.files;
    assert Held(files) == map[id := record];
    var first, second;
    before, first := SendOne(files, agent, record, 1.0, false);
    assert before.records[id].state == Sent && Held(files)[id].state == Pending;
    after, second := SendOne(files, agent, record, 2.0, true);
    wire := first + second;
    SendsConcat(first, second, id);
    assert first[0].id == second[0].id == id && first[1..] == second[1..] == [];
  }

  /** A backend that finds one pending record, and sends it. */
  method SendOne(files: Directory, agent: AgentId, record: Record, now: real, saveOk: bool)
    returns (queue: CommandQueue, wire: seq<Transmission>)
    requires Filed(files) && Held(files) == map[record.id := record] && record.attempts == 0
    ensures queue.records == MarkedSent(Held(files), record.id) && wire == [Transmission(record.id, now)]
    ensures !saveOk ==> queue.files == files
  {
    queue := new CommandQueue(files);
    var manager := new ConnectionManager(queue, []);
    manager.RegisterConnection(agent);
    var sent := manager.DispatchRecord(agent, record.id, now, true, true, saveOk);
    wire := manager.wire;
  }
}
