/** Backend, channel and agent together, for the commands of one agent. A send and its mark are one step here, a
    reconnection and its sweep are one step, and the frames of a session that ended are gone. */
module CommandProtocol {
  import opened Sequences
  import opened CommandRecords
  import opened AgentSession

  datatype Transmission = Transmission(id: Id, at: real)

  datatype System = System(
    recs: Records,              // backend
    connected: bool,
    down: seq<Id>,              // requests on their way to the agent
    up: seq<Frame>,             // frames on their way back
    window: seq<Id>,            // agent: duplicate window
    job: seq<Action>,           // agent: what is left to do for the request in hand
    executed: seq<Id>,          // everything ever executed
    wire: seq<Transmission>)    // every request ever sent, with its time

  datatype Step =
    | Submit(id: Id, command: string, timeout: Option<real>, now: real, sendOk: bool)
    | Reconnect(todo: seq<Id>, at: Readings, through: set<Id>)   // the clock, and the sends that succeed
    | Disconnect           // also a restart of a backend that has saved every record
    | AgentRestart
    | AgentReads(request: Request)
    | AgentActs
    | BackendReads

  ghost predicate Start(s: System) {
    s == System(map[], false, [], [], [], [], [], [])
  }

  function HungUp(s: System): System {
    s.(connected := false, down := [], up := [], job := [])
  }

  function Stamped(ids: seq<Id>, at: Readings): seq<Transmission> {
    if ids == [] then [] else [Transmission(ids[0], at(ids[0]))] + Stamped(ids[1..], at)
  }

  /** What a frame from the agent says about the state of its command. */
  function Says(f: Frame): Option<State> {
    match f
    case Ack(_) => Some(Acked)
    case Response(_, status) => RespToState(status)
  }

  function Heard(recs: Records, f: Frame): Records {
    match Says(f)
    case Some(state) => Marked(recs, f.id, state)
    case None => recs
  }

  ghost predicate Enabled(s: System, step: Step, agent: AgentId) {
    match step
    case Submit(id, _, _, _, _) => id !in s.recs && id != ""
    case Reconnect(todo, _, _) => WorkList(s.recs, agent, todo)
    case AgentReads(req) => s.connected && s.job == [] && s.down != [] && req.id == s.down[0]
    case AgentActs => s.connected && s.job != []
    case BackendReads => s.connected && s.up != []
    case _ => true
  }

  function Do(s: System, step: Step, agent: AgentId): System {
    match step
    case Submit(id, command, timeout, now, sendOk) =>
      var recs := s.recs[id := NewRecord(id, agent, command, timeout, now)];
      if s.connected && sendOk then
        s.(recs := MarkedSent(recs, id), down := s.down + [id], wire := s.wire + [Transmission(id, now)])
      else s.(recs := recs)
    case Reconnect(todo, at, through) =>
      var (recs, sent) := Sweep(s.recs, todo, at, through);
      HungUp(s).(recs := recs, connected := true, down := sent, wire := s.wire + Stamped(sent, at))
    case Disconnect => HungUp(s)
    case AgentRestart => HungUp(s).(window := [])
    case AgentReads(req) =>
      if s.down == [] then s
      else s.(down := s.down[1..], window := WindowAfter(s.window, req), job := Answer(s.window, req))
    case AgentActs =>
      if s.job == [] then s
      else if s.job[0].Execute? then s.(job := s.job[1..], executed := s.executed + [s.job[0].id])
      else s.(job := s.job[1..], up := s.up + [s.job[0].frame])
    case BackendReads =>
      if s.up == [] then s else s.(up := s.up[1..], recs := Heard(s.recs, s.up[0]))
  }

  // ---- What is still to come for one command ----

  function IdOf(a: Action): Id {
    if a.Execute? then a.id else a.frame.id
  }

  /** The actions of `acts` that concern `id`. */
  function For(id: Id, acts: seq<Action>): seq<Action> {
    if acts == [] then []
    else (if IdOf(acts[0]) == id then [acts[0]] else []) + For(id, acts[1..])
  }

  function Emits(frames: seq<Frame>): seq<Action> {
    if frames == [] then [] else [Emit(frames[0])] + Emits(frames[1..])
  }

  function Times(id: Id, ids: seq<Id>): nat {
    if ids == [] then 0 else (if ids[0] == id then 1 else 0) + Times(id, ids[1..])
  }

  lemma {:induction false} ForConcat(id: Id, a: seq<Action>, b: seq<Action>)
    ensures For(id, a + b) == For(id, a) + For(id, b)
  {
    if a == [] {
      assert a + b == b;
    } else {
      var head := if IdOf(a[0]) == id then [a[0]] else [];
      assert (a + b)[0] == a[0] && (a + b)[1..] == a[1..] + b;
      ForConcat(id, a[1..], b);
      ConcatAssoc(head, For(id, a[1..]), For(id, b));
    }
  }

  lemma {:induction false} EmitsConcat(a: seq<Frame>, b: seq<Frame>)
    ensures Emits(a + b) == Emits(a) + Emits(b)
  {
    if a == [] {
      assert a + b == b;
    } else {
      assert (a + b)[1..] == a[1..] + b;
      EmitsConcat(a[1..], b);
    }
  }

  lemma {:induction false} TimesConcat(id: Id, a: seq<Id>, b: seq<Id>)
    ensures Times(id, a + b) == Times(id, a) + Times(id, b)
  {
    if a == [] {
      assert a + b == b;
    } else {
      assert (a + b)[1..] == a[1..] + b;
      TimesConcat(id, a[1..], b);
    }
  }

  /** What the backend will hear, and the agent will do, about `id` if the session lives long enough. */
  function Ahead(s: System, id: Id): seq<Action> {
    For(id, Emits(s.up)) + For(id, s.job)
  }

  /** How often a command in this state may have been executed. */
  predicate Ran(state: State, times: nat) {
    && times <= 1
    && (state == Pending || state == Rejected ==> times == 0)
    && (state == Completed || state == Failed ==> times == 1)
  }

  /** From this state, executed `times` times, the actions ahead climb through the lifecycle, execute at most once in
      all, and report an outcome only after executing. */
  ghost predicate Fits(state: State, times: nat, ahead: seq<Action>)
    decreases |ahead|
  {
    && Ran(state, times)
    && (ahead != [] ==>
      && state != Pending
      && (match ahead[0]
          case Execute(_) => !Terminal(state) && times == 0 && Fits(state, 1, ahead[1..])
          case Emit(f) => Says(f).Some? && Later(state, Says(f).value) && Fits(Says(f).value, times, ahead[1..])))
  }

  /** The state of one command in the system. */
  ghost predicate Sound(s: System, id: Id) {
    && Times(id, s.down) <= 1
    && (id !in s.recs ==> Times(id, s.down) == 0 && Times(id, s.executed) == 0 && Ahead(s, id) == [] && Sends(s.wire, id) == 0)
    && (id in s.recs ==>
      && Fits(s.recs[id].state, Times(id, s.executed), Ahead(s, id))
      && (Times(id, s.down) == 1 ==> s.recs[id].state == Sent && Times(id, s.executed) == 0 && Ahead(s, id) == [])
      && s.recs[id].attempts == Sends(s.wire, id) <= 1
      && (Times(id, s.executed) > 0 || Ahead(s, id) != [] || Times(id, s.down) > 0 ==> s.recs[id].attempts == 1)
      && (s.recs[id].state == Pending ==> s.recs[id].attempts == 0))
  }

  function Sends(wire: seq<Transmission>, id: Id): nat {
    if wire == [] then 0 else (if wire[0].id == id then 1 else 0) + Sends(wire[1..], id)
  }

  lemma {:induction false} SendsConcat(a: seq<Transmission>, b: seq<Transmission>, id: Id)
    ensures Sends(a + b, id) == Sends(a, id) + Sends(b, id)
  {
    if a == [] {
      assert a + b == b;
    } else {
      assert (a + b)[1..] == a[1..] + b;
      SendsConcat(a[1..], b, id);
    }
  }

  lemma {:induction false} SendsStamped(ids: seq<Id>, at: Readings, id: Id)
    ensures Sends(Stamped(ids, at), id) == Times(id, ids)
  {
    if ids != [] {
      assert Stamped(ids, at)[1..] == Stamped(ids[1..], at);
      SendsStamped(ids[1..], at, id);
    }
  }

  lemma {:induction false} TimesDistinct(id: Id, ids: seq<Id>)
    requires Distinct(ids)
    ensures Times(id, ids) == if id in ids then 1 else 0
  {
    if ids != [] {
      assert forall i :: 0 <= i < |ids[1..]| ==> ids[1..][i] == ids[i + 1];
      TimesDistinct(id, ids[1..]);
    }
  }

  ghost predicate Inv(s: System, agent: AgentId) {
    && (forall id :: id in s.recs ==> s.recs[id].id == id && s.recs[id].agent == agent)
    && (forall id :: Sound(s, id))
    && (!s.connected ==> s.down == [] && s.up == [] && s.job == [])
    && ForOne(s.job)
  }

  /** Everything the agent has in hand belongs to one request. */
  ghost predicate ForOne(job: seq<Action>) {
    forall i, j :: 0 <= i < j < |job| ==> IdOf(job[i]) == IdOf(job[j])
  }

  // ---- Each step, seen from one command ----

  /** An execution that is ahead may take place now, before the frames in front of it are heard. */
  lemma {:induction false} ExecuteEarly(state: State, times: nat, heard: seq<Action>, id: Id, rest: seq<Action>)
    requires Fits(state, times, heard + [Execute(id)] + rest)
    requires forall i :: 0 <= i < |heard| ==> heard[i].Emit?
    ensures times == 0 && Fits(state, 1, heard + rest)
    decreases |heard|
  {
    var all := heard + [Execute(id)] + rest;
    if heard == [] {
      assert all[0] == Execute(id) && all[1..] == rest && heard + rest == rest;
    } else {
      assert all[0] == heard[0] && all[1..] == heard[1..] + [Execute(id)] + rest;
      ExecuteEarly(Says(heard[0].frame).value, times, heard[1..], id, rest);
      assert (heard + rest)[1..] == heard[1..] + rest;
    }
  }

  lemma {:induction false} EmitsOnly(id: Id, frames: seq<Frame>)
    ensures forall i :: 0 <= i < |For(id, Emits(frames))| ==> For(id, Emits(frames))[i].Emit?
  {
    if frames != [] {
      assert Emits(frames)[1..] == Emits(frames[1..]);
      EmitsOnly(id, frames[1..]);
    }
  }

  lemma {:induction false} ForOther(id: Id, acts: seq<Action>)
    requires forall i :: 0 <= i < |acts| ==> IdOf(acts[i]) != id
    ensures For(id, acts) == []
  {
    if acts != [] {
      assert forall i :: 0 <= i < |acts[1..]| ==> acts[1..][i] == acts[i + 1];
      ForOther(id, acts[1..]);
    }
  }

  lemma {:induction false} ForSame(id: Id, acts: seq<Action>)
    requires forall i :: 0 <= i < |acts| ==> IdOf(acts[i]) == id
    ensures For(id, acts) == acts
  {
    if acts != [] {
      assert forall i :: 0 <= i < |acts[1..]| ==> acts[1..][i] == acts[i + 1];
      ForSame(id, acts[1..]);
    }
  }

  /** Every answer climbs from `sent`. */
  lemma AnswerFits(window: seq<Id>, req: Request)
    ensures forall i :: 0 <= i < |Answer(window, req)| ==> IdOf(Answer(window, req)[i]) == req.id
    ensures Fits(Sent, 0, Answer(window, req))
  {
    var acts := Answer(window, req);
    if Considered(req) && req.id !in window && Runs(req) {
      var end := Emit(Response(req.id, if req.succeeds then SaySuccess else SayError));
      assert Fits(Says(end.frame).value, 1, []);
      assert [end][1..] == [];
      assert Fits(Acked, 1, [end]) && Fits(Running, 1, [end]);
      assert [Execute(req.id), end][1..] == [end];
      assert Fits(Acked, 0, [Execute(req.id), end]) && Fits(Running, 0, [Execute(req.id), end]);
      if req.long {
        var busy := Emit(Response(req.id, SayRunning));
        assert [busy, Execute(req.id), end][1..] == [Execute(req.id), end];
        assert Fits(Acked, 0, [busy, Execute(req.id), end]);
        assert acts == [Emit(Ack(req.id)), busy, Execute(req.id), end];
        assert acts[1..] == [busy, Execute(req.id), end];
      } else {
        assert acts == [Emit(Ack(req.id)), Execute(req.id), end];
        assert acts[1..] == [Execute(req.id), end];
      }
    } else if acts != [] {
      assert acts == [Emit(Response(req.id, SayRejected))] || acts == [Emit(Response(req.id, SayExpired))];
      assert acts[1..] == [];
    }
  }

  lemma HungUpSound(s: System, id: Id)
    requires Sound(s, id)
    ensures Sound(HungUp(s), id) && Sound(HungUp(s).(window := []), id)
  {
    assert Ahead(HungUp(s), id) == [] && Ahead(HungUp(s).(window := []), id) == [];
  }

  lemma SubmitSound(s: System, step: Step, agent: AgentId, id: Id)
    requires Inv(s, agent) && step.Submit? && Enabled(s, step, agent)
    ensures Sound(Do(s, step, agent), id)
  {
    var t := Do(s, step, agent);
    assert Sound(s, id) && Sound(s, step.id);
    assert Ahead(t, id) == Ahead(s, id);
    if t.down != s.down {
      TimesConcat(id, s.down, [step.id]);
      assert [step.id][1..] == [];
      SendsConcat(s.wire, [Transmission(step.id, step.now)], id);
      assert [Transmission(step.id, step.now)][1..] == [];
    }
  }

  lemma ReconnectSound(s: System, step: Step, agent: AgentId, id: Id)
    requires Inv(s, agent) && step.Reconnect? && Enabled(s, step, agent)
    ensures Sound(Do(s, step, agent), id)
  {
    assert Sound(s, id);
    var (recs, sent) := Sweep(s.recs, step.todo, step.at, step.through);
    assert Times(id, sent) == (if id in sent then 1 else 0)
      && (id in recs <==> id in s.recs)
      && (id in s.recs ==> recs[id] == if id in step.todo then SweptRecord(s.recs[id], step.at, step.through) else s.recs[id])
      && (id in sent <==> id in step.todo && Redispatched(s.recs[id], step.at, step.through)) by {
      SweepPerRecord(s.recs, step.todo, step.at, step.through);
      SubseqDistinct(sent, step.todo);
      TimesDistinct(id, sent);
    }
    assert Sends(s.wire + Stamped(sent, step.at), id) == Sends(s.wire, id) + Times(id, sent) by {
      SendsConcat(s.wire, Stamped(sent, step.at), id);
      SendsStamped(sent, step.at, id);
    }
    assert Ahead(Do(s, step, agent), id) == [];
  }

  lemma AgentReadsSound(s: System, step: Step, agent: AgentId, id: Id)
    requires Inv(s, agent) && step.AgentReads? && Enabled(s, step, agent)
    ensures Sound(Do(s, step, agent), id)
  {
    var t := Do(s, step, agent);
    assert Sound(s, id);
    assert Times(id, s.down) == (if id == s.down[0] then 1 else 0) + Times(id, t.down);
    AnswerFits(s.window, step.request);
    if id == s.down[0] {
      ForSame(id, t.job);
      assert Ahead(s, id) == [] ==> For(id, Emits(s.up)) == [];
      assert Ahead(t, id) == t.job;
    } else {
      ForOther(id, t.job);
      assert Ahead(t, id) == Ahead(s, id);
    }
  }

  /** A frame that is sent moves from the agent's hands to the channel. */
  lemma EmitMoves(up: seq<Frame>, job: seq<Action>, id: Id)
    requires job != [] && job[0].Emit?
    ensures For(id, Emits(up + [job[0].frame])) + For(id, job[1..]) == For(id, Emits(up)) + For(id, job)
  {
    var a := job[0];
    var one := if IdOf(a) == id then [a] else [];
    EmitsConcat(up, [a.frame]);
    assert Emits([a.frame]) == [a];
    ForConcat(id, Emits(up), [a]);
    assert For(id, [a]) == one;
    ConcatAssoc(For(id, Emits(up)), one, For(id, job[1..]));
  }

  lemma AgentActsSound(s: System, agent: AgentId, id: Id)
    requires Inv(s, agent) && Enabled(s, AgentActs, agent)
    ensures Sound(Do(s, AgentActs, agent), id)
  {
    var t := Do(s, AgentActs, agent);
    assert Sound(s, id);
    if s.job[0].Emit? {
      assert Ahead(t, id) == Ahead(s, id) by { EmitMoves(s.up, s.job, id); }
    } else {
      AgentExecutesSound(s, agent, id);
    }
  }

  lemma AgentExecutesSound(s: System, agent: AgentId, id: Id)
    requires Sound(s, id) && s.job != [] && s.job[0].Execute?
    ensures Sound(Do(s, AgentActs, agent), id)
  {
    var t := Do(s, AgentActs, agent);
    var now := s.job[0].id;
    assert Times(id, t.executed) == Times(id, s.executed) + (if id == now then 1 else 0) by {
      TimesConcat(id, s.executed, [now]);
      assert [now][1..] == [];
    }
    if id == now {
      var heard, rest := For(id, Emits(s.up)), For(id, t.job);
      assert For(id, s.job) == [Execute(id)] + rest;
      ConcatAssoc(heard, [Execute(id)], rest);
      assert Ahead(s, id)[|heard|] == Execute(id);
      EmitsOnly(id, s.up);
      ExecuteEarly(s.recs[id].state, Times(id, s.executed), heard, id, rest);
    } else {
      assert Ahead(t, id) == Ahead(s, id);
    }
  }

  lemma FirstHeard(s: System, id: Id)
    requires s.up != []
    ensures Ahead(s, id)
         == (if s.up[0].id == id then [Emit(s.up[0])] else []) + (For(id, Emits(s.up[1..])) + For(id, s.job))
  {
    var head := if s.up[0].id == id then [Emit(s.up[0])] else [];
    var rest := Emits(s.up[1..]);
    assert Emits(s.up)[0] == Emit(s.up[0]) && Emits(s.up)[1..] == rest;
    assert For(id, Emits(s.up)) == head + For(id, rest);
    ConcatAssoc(head, For(id, rest), For(id, s.job));
  }

  lemma BackendReadsSound(s: System, agent: AgentId, id: Id)
    requires Inv(s, agent) && Enabled(s, BackendReads, agent)
    ensures Sound(Do(s, BackendReads, agent), id)
  {
    var t := Do(s, BackendReads, agent);
    var f := s.up[0];
    assert Sound(s, id);
    FirstHeard(s, id);
    if id == f.id {
      assert Ahead(s, id)[0] == Emit(f) && Ahead(s, id)[1..] == Ahead(t, id);
    } else {
      assert Ahead(t, id) == Ahead(s, id);
    }
  }

  lemma StepSound(s: System, step: Step, agent: AgentId, id: Id)
    requires Inv(s, agent) && Enabled(s, step, agent)
    ensures Sound(Do(s, step, agent), id)
  {
    assert Sound(s, id);
    match step
    case Submit(_, _, _, _, _) => SubmitSound(s, step, agent, id);
    case Reconnect(_, _, _) => ReconnectSound(s, step, agent, id);
    case Disconnect => HungUpSound(s, id);
    case AgentRestart => HungUpSound(s, id);
    case AgentReads(_) => AgentReadsSound(s, step, agent, id);
    case AgentActs => AgentActsSound(s, agent, id);
    case BackendReads => BackendReadsSound(s, agent, id);
  }

  lemma StepBelongs(s: System, step: Step, agent: AgentId)
    requires Inv(s, agent) && Enabled(s, step, agent)
    ensures var t := Do(s, step, agent);
      forall id :: id in t.recs ==> t.recs[id].id == id && t.recs[id].agent == agent
  {
    hide Sound, ForOne;
    if step.Reconnect? {
      SweepPerRecord(s.recs, step.todo, step.at, step.through);
    }
  }

  lemma StepForOne(s: System, step: Step, agent: AgentId)
    requires Inv(s, agent) && Enabled(s, step, agent)
    ensures var t := Do(s, step, agent);
      ForOne(t.job) && (!t.connected ==> t.down == [] && t.up == [] && t.job == [])
  {
    hide Sound;
    if step.AgentReads? {
      AnswerFits(s.window, step.request);
    }
  }

  lemma StepKeepsInv(s: System, step: Step, agent: AgentId)
    requires Inv(s, agent) && Enabled(s, step, agent)
    ensures Inv(Do(s, step, agent), agent)
  {
    hide Do, Enabled, Sound, ForOne;
    StepBelongs(s, step, agent);
    StepForOne(s, step, agent);
    forall id ensures Sound(Do(s, step, agent), id) {
      StepSound(s, step, agent, id);
    }
  }

  // ---- The lifecycle ----

  /** One step moves records only up. */
  lemma StepClimbs(s: System, step: Step, agent: AgentId)
    requires Inv(s, agent) && Enabled(s, step, agent)
    ensures Climbs(s.recs, Do(s, step, agent).recs)
  {
    if step.Reconnect? {
      SweepClimbs(s.recs, agent, step.todo, step.at, step.through);
    } else if step.BackendReads? {
      var f := s.up[0];
      assert Sound(s, f.id);
      FirstHeard(s, f.id);
      assert Ahead(s, f.id)[0] == Emit(f);
    }
  }

  /** A step sends nothing that is past its time. */
  ghost predicate InTime(s: System, recs: Records) {
    forall i :: 0 <= i < |s.wire| ==>
      && s.wire[i].id in recs
      && !IsExpired(recs[s.wire[i].id].expiresAt, s.wire[i].at)
  }

  lemma {:induction false} StampedAt(ids: seq<Id>, at: Readings)
    ensures |Stamped(ids, at)| == |ids|
    ensures forall i :: 0 <= i < |ids| ==> Stamped(ids, at)[i] == Transmission(ids[i], at(ids[i]))
  {
    if ids != [] {
      StampedAt(ids[1..], at);
      assert forall i :: 0 < i < |ids| ==> ids[i] == ids[1..][i - 1];
    }
  }

  lemma StepInTime(s: System, step: Step, agent: AgentId)
    requires Inv(s, agent) && Enabled(s, step, agent) && InTime(s, s.recs)
    ensures InTime(Do(s, step, agent), Do(s, step, agent).recs)
  {
    var t := Do(s, step, agent);
    if step.Reconnect? {
      SweepPerRecord(s.recs, step.todo, step.at, step.through);
      StampedAt(t.down, step.at);
    }
  }

  // ---- Whole runs ----

  ghost predicate Run(run: seq<System>, steps: seq<Step>, agent: AgentId) {
    && |run| == |steps| + 1
    && Start(run[0])
    && forall i :: 0 <= i < |steps| ==> Enabled(run[i], steps[i], agent) && run[i + 1] == Do(run[i], steps[i], agent)
  }

  lemma {:induction false} RunInv(run: seq<System>, steps: seq<Step>, agent: AgentId, n: nat)
    requires Run(run, steps, agent) && n < |run|
    ensures Inv(run[n], agent) && InTime(run[n], run[n].recs)
  {
    if n == 0 {
      assert forall id :: Ahead(run[0], id) == [];
    } else {
      RunInv(run, steps, agent, n - 1);
      StepKeepsInv(run[n - 1], steps[n - 1], agent);
      StepInTime(run[n - 1], steps[n - 1], agent);
    }
  }

  /** Over every run, with any disconnections, restarts and failed sends, states only climb: no final state is left and
      `pending` is never entered again. */
  lemma {:induction false} LifecycleMonotone(run: seq<System>, steps: seq<Step>, agent: AgentId, i: nat, j: nat)
    requires Run(run, steps, agent) && i <= j < |run|
    ensures Climbs(run[i].recs, run[j].recs)
    decreases j - i
  {
    hide Inv, Enabled, Do;
    if i < j {
      RunInv(run, steps, agent, j - 1);
      StepClimbs(run[j - 1], steps[j - 1], agent);
      LifecycleMonotone(run, steps, agent, i, j - 1);
      ClimbsTrans(run[i].recs, run[j - 1].recs, run[j].recs);
    }
  }

  /** What the backend believes is what the agent did. */
  lemma BackendBelievesRight(run: seq<System>, steps: seq<Step>, agent: AgentId, n: nat, id: Id)
    requires Run(run, steps, agent) && n < |run| && id in run[n].recs
    ensures var times := Times(id, run[n].executed);
            var state := run[n].recs[id].state;
      && times <= 1
      && (state == Completed || state == Failed ==> times == 1)
      && (state == Pending || state == Rejected ==> times == 0)
  {
    RunInv(run, steps, agent, n);
    assert Sound(run[n], id);
  }

  /** A command goes out at most once, never past its time, and `attempts` counts it. */
  lemma SentOnceInTime(run: seq<System>, steps: seq<Step>, agent: AgentId, n: nat, id: Id)
    requires Run(run, steps, agent) && n < |run| && id in run[n].recs
    ensures run[n].recs[id].attempts == Sends(run[n].wire, id) <= 1
    ensures forall i :: 0 <= i < |run[n].wire| && run[n].wire[i].id == id ==>
      !IsExpired(run[n].recs[id].expiresAt, run[n].wire[i].at)
  {
    RunInv(run, steps, agent, n);
    assert Sound(run[n], id);
  }

  /** Nothing is executed that no one asked for. */
  lemma {:induction false} ExecutedWasAsked(run: seq<System>, steps: seq<Step>, agent: AgentId, n: nat, id: Id)
    requires Run(run, steps, agent) && n < |run| && Times(id, run[n].executed) > 0
    ensures id in run[n].recs && Sends(run[n].wire, id) == 1
  {
    RunInv(run, steps, agent, n);
    assert Sound(run[n], id);
  }
}
