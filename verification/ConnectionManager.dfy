/** The connection manager: dispatch, redispatch on reconnection, and what agents answer. */
module ConnectionManagers {
  import opened Sequences
  import opened CommandRecords
  import opened CommandQueues
  import opened AgentSession
  import opened CommandProtocol

  /** `attempts` counts the requests that went out, and nothing unknown went out. */
  ghost predicate Counted(recs: Records, wire: seq<Transmission>) {
    forall id :: Sends(wire, id) == if id in recs then recs[id].attempts else 0
  }

  lemma CountedSend(recs: Records, wire: seq<Transmission>, id: Id, now: real)
    requires Counted(recs, wire) && id in recs
    ensures Counted(MarkedSent(recs, id), wire + [Transmission(id, now)])
  {
    forall x ensures Sends(wire + [Transmission(id, now)], x) == Sends(wire, x) + if x == id then 1 else 0 {
      SendsConcat(wire, [Transmission(id, now)], x);
      assert [Transmission(id, now)][1..] == [];
    }
  }

  lemma {:induction false} StampedConcat(a: seq<Id>, b: seq<Id>, at: Readings)
    ensures Stamped(a + b, at) == Stamped(a, at) + Stamped(b, at)
  {
    if a == [] {
      assert a + b == b;
    } else {
      assert (a + b)[0] == a[0] && (a + b)[1..] == a[1..] + b;
      StampedConcat(a[1..], b, at);
    }
  }

  /** A sweep can be done one record at a time. */
  lemma {:induction false} SweepStep(recs: Records, todo: seq<Id>, id: Id, at: Readings, ok: set<Id>)
    ensures var (r1, s1) := Sweep(recs, todo, at, ok);
            var (r2, s2) := Sweep(r1, [id], at, ok);
            Sweep(recs, todo + [id], at, ok) == (r2, s1 + s2)
    decreases |todo|
  {
    if todo == [] {
      assert todo + [id] == [id];
      var s2 := Sweep(recs, [id], at, ok).1;
      assert [] + s2 == s2;
    } else {
      assert (todo + [id])[0] == todo[0] && (todo + [id])[1..] == todo[1..] + [id];
      var x := todo[0];
      var next :=
        if x !in recs then recs
        else if IsExpired(recs[x].expiresAt, at(x)) then Marked(recs, x, Expired)
        else if recs[x].state != Pending || x !in ok then recs
        else MarkedSent(recs, x);
      SweepStep(next, todo[1..], id, at, ok);
      var (r1, s1) := Sweep(next, todo[1..], at, ok);
      var (_, s2) := Sweep(r1, [id], at, ok);
      assert [x] + (s1 + s2) == ([x] + s1) + s2;
    }
  }

  lemma SweepOne(recs: Records, id: Id, at: Readings, ok: set<Id>)
    requires id in recs
    ensures Sweep(recs, [id], at, ok) ==
      if IsExpired(recs[id].expiresAt, at(id)) then (Marked(recs, id, Expired), [])
      else if recs[id].state != Pending || id !in ok then (recs, [])
      else (MarkedSent(recs, id), [id])
  {
    assert [id][1..] == [];
    assert [id] + [] == [id];
  }

  /** The sweep of `ids` led from the one state to the other. */
  ghost predicate Swept(recs0: Records, wire0: seq<Transmission>, ids: seq<Id>, at: Readings, ok: set<Id>, recs: Records,
                        wire: seq<Transmission>) {
    var (after, sent) := Sweep(recs0, ids, at, ok);
    recs == after && wire == wire0 + Stamped(sent, at)
  }

  lemma SweptNext(recs0: Records, wire0: seq<Transmission>, ids: seq<Id>, i: nat, at: Readings, ok: set<Id>, recs1: Records,
                  wire1: seq<Transmission>, recs2: Records, wire2: seq<Transmission>)
    requires i < |ids| && Swept(recs0, wire0, ids[..i], at, ok, recs1, wire1)
    requires Swept(recs1, wire1, [ids[i]], at, ok, recs2, wire2)
    ensures Swept(recs0, wire0, ids[..i + 1], at, ok, recs2, wire2)
  {
    var sent, next := Sweep(recs0, ids[..i], at, ok).1, Sweep(recs1, [ids[i]], at, ok).1;
    assert ids[..i + 1] == ids[..i] + [ids[i]];
    SweepStep(recs0, ids[..i], ids[i], at, ok);
    StampedConcat(sent, next, at);
    ConcatAssoc(wire0, Stamped(sent, at), Stamped(next, at));
  }

  /** What a frame does to the records: `result` is its payload. */
  ghost predicate Recorded(recs: Records, frame: Frame, result: Option<string>, after: Records) {
    && after.Keys == recs.Keys
    && (forall id :: id in recs && id != frame.id ==> after[id] == recs[id])
    && (frame.id in recs ==>
         var r, s := recs[frame.id], after[frame.id];
         match frame
         case Ack(_) => s == r.(state := Acked)
         case Response(_, SayRunning) => s == r.(state := Running, reply := result)
         case Response(_, SaySuccess) => s == r.(state := Completed, reply := result)
         case Response(_, SayError) => s == r.(state := Failed, reply := result)
         case Response(_, SayFailed) => s == r.(state := Failed, reply := result)
         case Response(_, SayRejected) => s == r.(state := Rejected, reply := result)
         case Response(_, SayExpired) => s == r.(state := Expired, reply := result)
         case Response(_, SayOther(_)) => s == r)
  }

  datatype Outcome = Forbidden | NoSigningKey | RateLimited | Queued(id: Id) | Awaiting(id: Id)

  /** The timeout nearest to the one asked for, between five seconds and five minutes. */
  function Clamped(t: real): (r: real)
    ensures 5.0 <= r <= 300.0
    ensures forall x: real :: 5.0 <= x <= 300.0 ==> Far(t, r) <= Far(t, x)
  {
    if t < 5.0 then 5.0 else if t > 300.0 then 300.0 else t
  }

  function Far(a: real, b: real): (r: real)
    ensures r >= 0.0 && (r == a - b || r == b - a)
  {
    if a < b then b - a else a - b
  }

  class ConnectionManager {
    const queue: CommandQueue
    var online: set<AgentId>         // active_connections
    var wire: seq<Transmission>      // every request that was sent, restarts included

    ghost predicate Valid()
      reads this, queue
    {
      queue.Valid() && Counted(queue.records, wire)
    }

    /** A new backend process on a queue as loaded; `past` is what earlier ones sent. */
    constructor (queue: CommandQueue, past: seq<Transmission>)
      requires queue.Valid() && Counted(queue.records, past)
      ensures this.queue == queue && Valid() && online == {} && wire == past
    {
      this.queue, online, wire := queue, {}, past;
    }

    method RegisterConnection(agent: AgentId)
      requires Valid()
      modifies this`online
      ensures Valid() && online == old(online) + {agent}
    {
      online := online + {agent};
    }

    method Disconnect(agent: AgentId)
      requires Valid()
      modifies this`online
      ensures Valid() && online == old(online) - {agent}
    {
      online := online - {agent};
    }

    /** `_dispatch_record`, its send and its mark with nothing in between. */
    method DispatchRecord(agent: AgentId, id: Id, now: real, keyOk: bool, sendOk: bool, saveOk: bool) returns (sent: bool)
      requires Valid() && id in queue.records
      modifies this`wire, queue`records, queue`files
      ensures Valid() && (old(queue.Saved()) && saveOk ==> queue.Saved())
      ensures !saveOk ==> queue.files == old(queue.files)
      ensures sent == (agent in online && keyOk && sendOk)
      ensures queue.records == if sent then MarkedSent(old(queue.records), id) else old(queue.records)
      ensures wire == if sent then old(wire) + [Transmission(id, now)] else old(wire)
    {
      if agent !in online || !keyOk || !sendOk {
        return false;
      }
      CountedSend(queue.records, wire, id, now);
      wire := wire + [Transmission(id, now)];
      queue.MarkSentNow(id, saveOk);
      return true;
    }

    /** One round of the loop of `dispatch_pending`. */
    method DispatchNext(agent: AgentId, id: Id, at: Readings, keyOk: bool, through: set<Id>, saveOk: bool)
      requires Valid() && id in queue.records && agent in online
      modifies this`wire, queue`records, queue`files
      ensures Valid() && (old(queue.Saved()) && saveOk ==> queue.Saved())
      ensures queue.records.Keys == old(queue.records.Keys)
      ensures var (recs, sent) := Sweep(old(queue.records), [id], at, if keyOk then through else {});
        queue.records == recs && wire == old(wire) + Stamped(sent, at)
    {
      SweepOne(queue.records, id, at, if keyOk then through else {});
      assert Stamped([id], at) == [Transmission(id, at(id))] by { StampedAt([id], at); }
      if IsExpired(queue.records[id].expiresAt, at(id)) {
        queue.Expire(id, saveOk);
      } else if queue.records[id].state == Pending {
        var _ := DispatchRecord(agent, id, at(id), keyOk, id in through, saveOk);
      }
    }

    /** `dispatch_pending`: a sweep over the agent's open records, oldest first; the clock reads as in `at`, and
        `through` are the sends that succeed. */
    method DispatchPending(agent: AgentId, at: Readings, keyOk: bool, through: set<Id>, saveOk: bool) returns (ghost todo: seq<Id>)
      requires Valid()
      modifies this`wire, queue`records, queue`files
      ensures Valid() && (old(queue.Saved()) && saveOk ==> queue.Saved())
      ensures agent !in online ==> todo == []
      ensures agent in online ==> WorkList(old(queue.records), agent, todo)
      ensures var (recs, sent) := Sweep(old(queue.records), todo, at, if keyOk then through else {});
        && queue.records == recs
        && wire == old(wire) + Stamped(sent, at)
        && (forall id :: id in sent ==> id in old(queue.records))
        && (agent in online ==> forall id :: id in old(queue.records) && old(queue.records)[id].agent == agent ==>
             var r := old(queue.records)[id];
             if r.state == Completed || r.state == Failed || r.state == Expired || r.state == Rejected
             then recs[id] == r && id !in sent
             else SweptInTime(r, at(id), keyOk && id in through, recs[id], id in sent))
        && forall i, j :: 0 <= i < j < |sent| ==>
             old(queue.records)[sent[i]].issuedAt <= old(queue.records)[sent[j]].issuedAt
    {
      todo := [];
      if agent !in online {
        return;
      }
      var ids := queue.NonTerminalFor(agent);
      todo := ids;
      SweepInOrder(queue.records, agent, todo, at, if keyOk then through else {});
      SweepByTime(queue.records, todo, at, if keyOk then through else {});
      DispatchAll(agent, ids, at, keyOk, through, saveOk);
    }

    /** The loop of it. */
    method DispatchAll(agent: AgentId, ids: seq<Id>, at: Readings, keyOk: bool, through: set<Id>, saveOk: bool)
      requires Valid() && agent in online && forall id :: id in ids ==> id in queue.records
      modifies this`wire, queue`records, queue`files
      ensures Valid() && (old(queue.Saved()) && saveOk ==> queue.Saved())
      ensures var (recs, sent) := Sweep(old(queue.records), ids, at, if keyOk then through else {});
        queue.records == recs && wire == old(wire) + Stamped(sent, at)
    {
      ghost var ok := if keyOk then through else {};
      ghost var recs0, wire0 := queue.records, wire;
      assert wire + [] == wire;
      for i := 0 to |ids|
        invariant Valid() && (old(queue.Saved()) && saveOk ==> queue.Saved())
        invariant queue.records.Keys == recs0.Keys
        invariant Swept(recs0, wire0, ids[..i], at, ok, queue.records, wire)
      {
        assert ids[i] in ids;
        ghost var recs1, wire1 := queue.records, wire;
        DispatchNext(agent, ids[i], at, keyOk, through, saveOk);
        SweptNext(recs0, wire0, ids, i, at, ok, recs1, wire1, queue.records, wire);
      }
      assert ids[..|ids|] == ids;
    }

    /** `send_command_to_agent`, up to the wait for the response. */
    method SendCommand(agent: AgentId, command: string, forbidden: bool, keyOk: bool, withinLimits: bool,
                       timeout: real, uuid: Id, now: real, sendOk: bool, saveOk: bool) returns (outcome: Outcome)
      requires Valid()
      modifies this`wire, queue
      ensures Valid() && (old(queue.Saved()) && saveOk ==> queue.Saved())
      ensures outcome ==
        if forbidden then Forbidden else if !keyOk then NoSigningKey else if !withinLimits then RateLimited
        else if agent in online && sendOk then Awaiting(uuid) else Queued(uuid)
      ensures forbidden || !keyOk || !withinLimits ==> queue.records == old(queue.records) && wire == old(wire)
      ensures !forbidden && keyOk && withinLimits ==>
        var known := if uuid in old(queue.records) then old(queue.records)
                     else old(queue.records)[uuid := NewRecord(uuid, agent, command, Some(Clamped(timeout)), now)];
        && queue.records == (if outcome.Awaiting? then MarkedSent(known, uuid) else known)
        && wire == (if outcome.Awaiting? then old(wire) + [Transmission(uuid, now)] else old(wire))
      ensures !forbidden && keyOk && withinLimits && uuid != "" && uuid !in old(queue.records) ==>
        && uuid in queue.records && queue.records[uuid].expiresAt.Some?
        && queue.records[uuid].state == (if agent in online && sendOk then Sent else Pending)
        && queue.records[uuid].expiresAt.value - now
           == if timeout > 300.0 then 300.0 else if timeout > 30.0 then timeout else 30.0
    {
      if forbidden {
        return Forbidden;
      }
      if !keyOk {
        return NoSigningKey;
      }
      if !withinLimits {
        return RateLimited;
      }
      var record := queue.Enqueue(agent, command, Some(Clamped(timeout)), None, uuid, now, saveOk);
      if agent !in online {
        return Queued(record.id);
      }
      var sent := DispatchRecord(agent, record.id, now, keyOk, sendOk, saveOk);
      return if sent then Awaiting(record.id) else Queued(record.id);
    }

    /** `handle_agent_message` for acks and responses. */
    method HandleAgentMessage(frame: Frame, result: Option<string>, saveOk: bool)
      requires Valid()
      modifies queue`records, queue`files
      ensures Valid() && (old(queue.Saved()) && saveOk ==> queue.Saved())
      ensures queue.records == Updated(Heard(old(queue.records), frame), frame.id,
        if frame.Response? && Says(frame).Some? then Reply(result) else Nothing)
      ensures Recorded(old(queue.records), frame, result, queue.records)
    {
      if frame.Response? {
        var state := RespToState(frame.status);
        if state.Some? {
          var _ := queue.Mark(frame.id, state.value, Reply(result), saveOk);
        }
      } else {
        var _ := queue.Mark(frame.id, Acked, Nothing, saveOk);
      }
    }
  }
}
