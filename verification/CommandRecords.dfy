/** Command records and their lifecycle, as values. */
module CommandRecords {
  import opened Sequences

  type Id = string
  type AgentId = string

  datatype State = Pending | Sent | Acked | Running | Completed | Failed | Expired | Rejected

  predicate Terminal(s: State) {
    s == Completed || s == Failed || s == Expired || s == Rejected
  }

  function Rank(s: State): nat {
    match s
    case Pending => 0
    case Sent => 1
    case Acked => 2
    case Running => 3
    case _ => 4
  }

  /** `b` is a later state of the lifecycle than `a`, and `a` is not final. */
  predicate Later(a: State, b: State) {
    !Terminal(a) && Rank(a) < Rank(b)
  }

  /** The `status` of a command response. */
  datatype Status = SayRunning | SaySuccess | SayError | SayFailed | SayRejected | SayExpired | SayOther(text: string)

  /** RESP_TO_STATE */
  function RespToState(status: Status): Option<State> {
    match status
    case SayRunning => Some(Running)
    case SaySuccess => Some(Completed)
    case SayError => Some(Failed)
    case SayFailed => Some(Failed)
    case SayRejected => Some(Rejected)
    case SayExpired => Some(Expired)
    case SayOther(_) => None
  }

  datatype Record = Record(
    id: Id, agent: AgentId, command: string,
    issuedAt: real, expiresAt: Option<real>,   // None: absent or unreadable
    state: State, attempts: nat, reply: Option<string>)

  type Records = map<Id, Record>

  const DEFAULT_TTL: real := 30.0

  /** `is_expired` */
  predicate IsExpired(expiresAt: Option<real>, now: real) {
    expiresAt.None? || expiresAt.value < now
  }

  function NewRecord(id: Id, agent: AgentId, command: string, timeout: Option<real>, now: real): Record {
    var ttl := if timeout.Some? && timeout.value > DEFAULT_TTL then timeout.value else DEFAULT_TTL;
    Record(id, agent, command, now, Some(now + ttl), Pending, 0, None)
  }

  /** `mark`: overwrites the state whatever it was; an unknown id changes nothing. */
  function Marked(recs: Records, id: Id, state: State): Records {
    if id in recs then recs[id := recs[id].(state := state)] else recs
  }

  function MarkedSent(recs: Records, id: Id): Records {
    if id in recs then recs[id := recs[id].(state := Sent, attempts := recs[id].attempts + 1)] else recs
  }

  /** No record left its final state, went back, or disappeared. */
  ghost predicate Climbs(before: Records, after: Records) {
    forall id :: id in before ==>
      id in after && (after[id].state == before[id].state || Later(before[id].state, after[id].state))
  }

  /** That is: nothing becomes pending again, nothing sent but what was pending, nothing acked but what was pending or sent,
      nothing that ran goes back, and what is final stays. */
  lemma ClimbsMeans(before: Records, after: Records, id: Id)
    requires Climbs(before, after) && id in before
    ensures id in after
    ensures var a, b := before[id].state, after[id].state;
      && (b == Pending ==> a == Pending)
      && (b == Sent ==> a == Pending || a == Sent)
      && (b == Acked ==> a == Pending || a == Sent || a == Acked)
      && (b == Running ==> a == Pending || a == Sent || a == Acked || a == Running)
      && (a == Completed || a == Failed || a == Expired || a == Rejected ==> b == a)
  {
  }

  lemma ClimbsTrans(a: Records, b: Records, c: Records)
    requires Climbs(a, b) && Climbs(b, c)
    ensures Climbs(a, c)
  {
    forall id | id in a
      ensures id in c && (c[id].state == a[id].state || Later(a[id].state, c[id].state))
    {
      assert id in b;
    }
  }

  /** `mark` has no guard: it keeps the lifecycle exactly when the record is unknown, already in that state, or in an
      earlier one. */
  lemma MarkClimbs(recs: Records, id: Id, state: State)
    ensures Climbs(recs, Marked(recs, id, state))
      <==> (id !in recs || recs[id].state == state || Later(recs[id].state, state))
  {
    if id in recs {
      assert Marked(recs, id, state)[id].state == state;
    }
  }

  /** An ack that is handled before the send is marked is undone by the mark. */
  lemma LateMarkFallsBack(recs: Records, id: Id)
    requires id in recs && recs[id].state == Pending
    ensures !Climbs(Marked(recs, id, Acked), MarkedSent(Marked(recs, id, Acked), id))
  {
    var acked := Marked(recs, id, Acked);
    assert id in acked && acked[id].state == Acked;
    assert MarkedSent(acked, id)[id].state == Sent;
  }

  // ---- The index by agent ----

  /** The index is the grouping of the records by agent. */
  ghost predicate Indexed(recs: Records, byAgent: map<AgentId, set<Id>>) {
    && (forall id :: id in recs ==> recs[id].id == id)
    && (forall id :: id in recs ==> recs[id].agent in byAgent && id in byAgent[recs[id].agent])
    && (forall a, id :: a in byAgent && id in byAgent[a] ==> id in recs && recs[id].agent == a)
  }

  function Group(byAgent: map<AgentId, set<Id>>, a: AgentId): set<Id> {
    if a in byAgent then byAgent[a] else {}
  }

  /** Two indexes of the same records give every agent the same records. */
  lemma IndexUnique(recs: Records, i1: map<AgentId, set<Id>>, i2: map<AgentId, set<Id>>, a: AgentId)
    requires Indexed(recs, i1) && Indexed(recs, i2)
    ensures Group(i1, a) == Group(i2, a)
  {
    assert forall id :: id in Group(i1, a) <==> id in recs && recs[id].agent == a;
    assert forall id :: id in Group(i2, a) <==> id in recs && recs[id].agent == a;
  }

  // ---- The sweep of `dispatch_pending` ----

  /** The agent's work list: each of its records once, oldest first. */
  ghost predicate WorkList(recs: Records, agent: AgentId, ids: seq<Id>) {
    && (forall i, j :: 0 <= i < j < |ids| ==> ids[i] != ids[j])
    && (forall id :: id in ids <==> id in recs && recs[id].agent == agent && !Terminal(recs[id].state))
    && (forall i, j :: 0 <= i < j < |ids| ==> recs[ids[i]].issuedAt <= recs[ids[j]].issuedAt)
  }

  /** The readings of the clock in a sweep, one for each record. */
  type Readings = Id -> real

  /** The loop of `dispatch_pending`: the records afterwards, and the ids sent, when exactly the sends of `ok` succeed and the clock
      reads as in `at`. */
  function Sweep(recs: Records, todo: seq<Id>, at: Readings, ok: set<Id>): (Records, seq<Id>)
    decreases |todo|
  {
    if todo == [] then (recs, [])
    else
      var id := todo[0];
      if id !in recs then Sweep(recs, todo[1..], at, ok)
      else if IsExpired(recs[id].expiresAt, at(id)) then Sweep(Marked(recs, id, Expired), todo[1..], at, ok)
      else if recs[id].state != Pending || id !in ok then Sweep(recs, todo[1..], at, ok)
      else
        var rest := Sweep(MarkedSent(recs, id), todo[1..], at, ok);
        (rest.0, [id] + rest.1)
  }

  predicate Redispatched(r: Record, at: Readings, ok: set<Id>) {
    r.state == Pending && !IsExpired(r.expiresAt, at(r.id)) && r.id in ok
  }

  /** What the sweep makes of one record of the list. */
  function SweptRecord(r: Record, at: Readings, ok: set<Id>): Record {
    if IsExpired(r.expiresAt, at(r.id)) then r.(state := Expired)
    else if Redispatched(r, at, ok) then r.(state := Sent, attempts := r.attempts + 1)
    else r
  }

  /** The sweep treats each listed record once, on its own, and leaves every other alone; what it sends is the
      part of the list that is pending, not expired, and goes through, in the order of the list. */
  lemma {:induction false} SweepPerRecord(recs: Records, todo: seq<Id>, at: Readings, ok: set<Id>)
    requires forall i, j :: 0 <= i < j < |todo| ==> todo[i] != todo[j]
    requires forall id :: id in todo ==> id in recs
    requires forall id :: id in recs ==> recs[id].id == id
    ensures var (after, sent) := Sweep(recs, todo, at, ok);
      && after.Keys == recs.Keys
      && (forall id :: id in recs ==> after[id] == if id in todo then SweptRecord(recs[id], at, ok) else recs[id])
      && IsSubseq(sent, todo)
      && (forall id :: id in sent <==> id in todo && Redispatched(recs[id], at, ok))
    decreases |todo|
  {
    if todo != [] {
      var id := todo[0];
      var rest := todo[1..];
      var next :=
        if IsExpired(recs[id].expiresAt, at(id)) then Marked(recs, id, Expired)
        else if recs[id].state != Pending || id !in ok then recs
        else MarkedSent(recs, id);
      assert id in recs && id !in rest;
      assert forall i :: 0 <= i < |rest| ==> rest[i] == todo[i + 1];
      assert next.Keys == recs.Keys;
      assert forall x :: x in todo <==> x == id || x in rest;
      SweepPerRecord(next, rest, at, ok);
      var (after, sent) := Sweep(next, rest, at, ok);
      assert after[id] == next[id] == SweptRecord(recs[id], at, ok);
      assert ([id] + sent)[1..] == sent;
    }
  }

  /** What a sweep does to one listed record, by the time that the clock reads for it: past its time it expires and is not
      sent; before that it goes out if it is pending and gets through, and is left alone otherwise. */
  ghost predicate SweptInTime(r: Record, reading: real, through: bool, after: Record, sent: bool) {
    if r.expiresAt.Some? && reading <= r.expiresAt.value then
      if r.state == Pending && through then after == r.(state := Sent, attempts := r.attempts + 1) && sent
      else after == r && !sent
    else after == r.(state := Expired) && !sent
  }

  lemma SweepByTime(recs: Records, todo: seq<Id>, at: Readings, ok: set<Id>)
    requires forall i, j :: 0 <= i < j < |todo| ==> todo[i] != todo[j]
    requires forall id :: id in todo ==> id in recs
    requires forall id :: id in recs ==> recs[id].id == id
    ensures var (after, sent) := Sweep(recs, todo, at, ok);
      && after.Keys == recs.Keys
      && (forall id :: id in todo ==> SweptInTime(recs[id], at(id), id in ok, after[id], id in sent))
      && (forall id :: id in recs && id !in todo ==> after[id] == recs[id] && id !in sent)
  {
    SweepPerRecord(recs, todo, at, ok);
  }

  /** Frames go out in the order of issue. */
  lemma SweepInOrder(recs: Records, agent: AgentId, todo: seq<Id>, at: Readings, ok: set<Id>)
    requires WorkList(recs, agent, todo) && forall id :: id in recs ==> recs[id].id == id
    ensures var sent := Sweep(recs, todo, at, ok).1;
      && (forall id :: id in sent ==> id in recs)
      && (forall i, j :: 0 <= i < j < |sent| ==> recs[sent[i]].issuedAt <= recs[sent[j]].issuedAt)
  {
    var sent := Sweep(recs, todo, at, ok).1;
    SweepPerRecord(recs, todo, at, ok);
    SubseqOrdered(recs, sent, todo);
  }

  lemma {:induction false} SubseqOrdered(recs: Records, a: seq<Id>, b: seq<Id>)
    requires IsSubseq(a, b)
    requires forall i :: 0 <= i < |b| ==> b[i] in recs
    requires forall i, j :: 0 <= i < j < |b| ==> recs[b[i]].issuedAt <= recs[b[j]].issuedAt
    ensures forall i :: 0 <= i < |a| ==> a[i] in b
    ensures forall i, j :: 0 <= i < j < |a| ==> recs[a[i]].issuedAt <= recs[a[j]].issuedAt
    decreases |b|
  {
    if a == [] || b == [] {
    } else {
      assert forall i :: 0 <= i < |b[1..]| ==> b[1..][i] == b[i + 1];
      if a[0] == b[0] && IsSubseq(a[1..], b[1..]) {
        SubseqOrdered(recs, a[1..], b[1..]);
        forall i | 0 <= i < |a| ensures a[i] in b && recs[a[0]].issuedAt <= recs[a[i]].issuedAt {
          if i > 0 {
            assert a[i] == a[1..][i - 1];
            assert a[i] in b[1..];
            var k :| 0 <= k < |b[1..]| && b[1..][k] == a[i];
            assert b[k + 1] == a[i];
          }
        }
        forall i, j | 0 <= i < j < |a| ensures recs[a[i]].issuedAt <= recs[a[j]].issuedAt {
          if i > 0 {
            assert a[i] == a[1..][i - 1] && a[j] == a[1..][j - 1];
          }
        }
      } else {
        SubseqOrdered(recs, a, b[1..]);
        forall i | 0 <= i < |a| ensures a[i] in b {
          assert a[i] in b[1..];
        }
      }
    }
  }

  /** A sweep only climbs. */
  lemma SweepClimbs(recs: Records, agent: AgentId, todo: seq<Id>, at: Readings, ok: set<Id>)
    requires WorkList(recs, agent, todo) && forall id :: id in recs ==> recs[id].id == id
    ensures Climbs(recs, Sweep(recs, todo, at, ok).0)
  {
    SweepPerRecord(recs, todo, at, ok);
  }
}
