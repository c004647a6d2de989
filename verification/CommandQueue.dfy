/** The persistent command queue and the connection manager that drives it. */
module CommandQueues {
  import opened Sequences
  import opened CommandRecords

  /** A file of the queue directory. */
  datatype Stored = Whole(record: Record) | Broken

  type Directory = map<Id, Stored>   // by file name, without `.json`

  /** Every file is named after the record in it. */
  ghost predicate Filed(files: Directory) {
    forall name :: name in files && files[name].Whole? ==> files[name].record.id == name
  }

  /** What a directory holds. */
  function Held(files: Directory): Records {
    map name | name in files && files[name].Whole? :: files[name].record
  }

  ghost predicate OldestFirst(recs: Records, ids: seq<Id>) {
    forall i, j :: 0 <= i < j < |ids| && ids[i] in recs && ids[j] in recs ==>
      recs[ids[i]].issuedAt <= recs[ids[j]].issuedAt
  }

  /** `ids` are the members of `group`, each once, oldest first. */
  ghost predicate Listing(recs: Records, group: set<Id>, ids: seq<Id>) {
    && (forall i, j :: 0 <= i < j < |ids| ==> ids[i] != ids[j])
    && (forall id :: id in ids <==> id in group)
    && OldestFirst(recs, ids)
  }

  /** What `mark` writes besides the state. */
  datatype Update = Nothing | Reply(result: Option<string>)

  function Updated(recs: Records, id: Id, update: Update): Records {
    if update.Reply? && id in recs then recs[id := recs[id].(reply := update.result)] else recs
  }

  class CommandQueue {
    var records: Records
    var byAgent: map<AgentId, set<Id>>
    var files: Directory

    ghost predicate Valid()
      reads this
    {
      Indexed(records, byAgent) && Filed(files)
    }

    /** Nothing would change if the backend restarted now. */
    ghost predicate Saved()
      reads this
    {
      Held(files) == records
    }

    /** `__init__` and `_load`, in whatever order the directory is listed. */
    constructor (directory: Directory)
      ensures files == directory
      ensures Filed(directory) ==> Valid() && Saved()
    {
      records, byAgent, files := map[], map[], directory;
      new;
      var todo := directory.Keys;
      ghost var done: set<Id> := {};
      while todo != {}
        invariant files == directory && done + todo == directory.Keys && done !! todo
        invariant Filed(directory) ==> Indexed(records, byAgent)
        invariant Filed(directory) ==> records == map name | name in done && directory[name].Whole? :: directory[name].record
        decreases todo
      {
        var name :| name in todo;
        todo := todo - {name};
        if directory[name].Whole? {
          var record := directory[name].record;
          if Filed(directory) {
            NewIndexed(records, byAgent, record);
          }
          records := records[record.id := record];
          byAgent := byAgent[record.agent := Group(byAgent, record.agent) + {record.id}];
        }
        done := done + {name};
      }
    }

    /** `_persist`: an I/O error is logged and forgotten. */
    method Persist(record: Record, saveOk: bool)
      modifies this`files
      ensures files == if saveOk then old(files)[record.id := Whole(record)] else old(files)
    {
      if saveOk {
        files := files[record.id := Whole(record)];
      }
    }

    /** `enqueue`; `uuid` is the id drawn when the caller brings none. */
    method Enqueue(agent: AgentId, command: string, timeout: Option<real>, messageId: Option<Id>, uuid: Id, now: real,
                   saveOk: bool) returns (record: Record)
      requires Valid()
      modifies this
      ensures Valid()
      ensures var mid := if messageId.Some? && messageId.value != "" then messageId.value else uuid;
        && record.id == mid
        && records == (if mid in old(records) then old(records) else old(records)[mid := record])
        && record == (if mid in old(records) then old(records)[mid] else NewRecord(mid, agent, command, timeout, now))
      ensures record.id !in old(records) ==>
        && record.agent == agent && record.command == command && record.issuedAt == now
        && record.state == Pending && record.attempts == 0 && record.reply == None
        && record.expiresAt.Some?
        && record.expiresAt.value - now == if timeout.Some? && timeout.value >= 30.0 then timeout.value else 30.0
      ensures old(Saved()) && saveOk ==> Saved()
    {
      var mid := if messageId.Some? && messageId.value != "" then messageId.value else uuid;
      if mid in records {
        return records[mid];
      }
      record := NewRecord(mid, agent, command, timeout, now);
      Add(record, saveOk);
    }

    method Add(record: Record, saveOk: bool)
      requires Valid() && record.id !in records
      modifies this
      ensures Valid() && records == old(records)[record.id := record]
      ensures old(Saved()) && saveOk ==> Saved()
    {
      NewIndexed(records, byAgent, record);
      SavedOne(files, record);
      records := records[record.id := record];
      byAgent := byAgent[record.agent := Group(byAgent, record.agent) + {record.id}];
      Persist(record, saveOk);
    }

    /** `mark` */
    method Mark(id: Id, state: State, update: Update, saveOk: bool) returns (found: bool)
      requires Valid()
      modifies this`records, this`files
      ensures Valid()
      ensures found == (id in old(records))
      ensures records == Updated(Marked(old(records), id, state), id, update)
      ensures old(Saved()) && saveOk ==> Saved()
      ensures !saveOk ==> files == old(files)
    {
      if id !in records {
        return false;
      }
      records := Updated(Marked(records, id, state), id, update);
      Persist(records[id], saveOk);
      return true;
    }

    /** `mark` as `_dispatch_record` calls it. */
    method MarkSentNow(id: Id, saveOk: bool)
      requires Valid()
      modifies this`records, this`files
      ensures Valid() && records == MarkedSent(old(records), id)
      ensures old(Saved()) && saveOk ==> Saved()
      ensures !saveOk ==> files == old(files)
    {
      if id in records {
        records := records[id := records[id].(state := Sent, attempts := records[id].attempts + 1)];
        Persist(records[id], saveOk);
      }
    }

    /** `list_for_agent` */
    method ListForAgent(agent: AgentId) returns (ids: seq<Id>)
      requires Valid()
      ensures Listing(records, Group(byAgent, agent), ids)
      ensures forall id :: id in ids <==> id in records && records[id].agent == agent
    {
      ids := [];
      var todo := Group(byAgent, agent);
      ghost var done: set<Id> := {};
      while todo != {}
        invariant done + todo == Group(byAgent, agent) && done !! todo
        invariant Listing(records, done, ids)
        decreases todo
      {
        var id :| id in todo;
        todo := todo - {id};
        ids := InsertByIssue(ids, done, id);
        done := done + {id};
      }
    }

    /** One step of sorting by `issued_at`. */
    method InsertByIssue(ids: seq<Id>, ghost group: set<Id>, id: Id) returns (r: seq<Id>)
      requires Listing(records, group, ids) && id !in group && id in records && group <= records.Keys
      ensures Listing(records, group + {id}, r)
    {
      var k := 0;
      while k < |ids| && records[ids[k]].issuedAt <= records[id].issuedAt
        invariant k <= |ids|
        invariant forall i :: 0 <= i < k ==> records[ids[i]].issuedAt <= records[id].issuedAt
      {
        k := k + 1;
      }
      r := Inserted(ids, k, id);
      InsertedListing(records, group, ids, id, k);
    }

    /** `non_terminal_for` */
    method NonTerminalFor(agent: AgentId) returns (ids: seq<Id>)
      requires Valid()
      ensures WorkList(records, agent, ids)
    {
      var all := ListForAgent(agent);
      ids := [];
      for i := 0 to |all|
        invariant forall id :: id in ids <==> id in all[..i] && !Terminal(records[id].state)
        invariant forall j, k :: 0 <= j < k < |ids| ==> ids[j] != ids[k]
        invariant OldestFirst(records, ids)
      {
        assert all[..i + 1] == all[..i] + [all[i]];
        assert all[i] !in all[..i];
        if !Terminal(records[all[i]].state) {
          assert forall j :: 0 <= j < |ids| ==> ids[j] in all[..i];
          ids := ids + [all[i]];
        }
      }
      assert all[..|all|] == all;
    }

    /** `expire` */
    method Expire(id: Id, saveOk: bool)
      requires Valid()
      modifies this`records, this`files
      ensures Valid() && records == Marked(old(records), id, Expired)
      ensures old(Saved()) && saveOk ==> Saved()
      ensures !saveOk ==> files == old(files)
    {
      if id in records {
        records := records[id := records[id].(state := Expired)];
        Persist(records[id], saveOk);
      }
    }
  }

  /** What a directory holds after one record was written. */
  lemma SavedOne(files: Directory, r: Record)
    ensures Held(files[r.id := Whole(r)]) == Held(files)[r.id := r]
    ensures Filed(files) ==> Filed(files[r.id := Whole(r)])
  {
  }

  /** A new record joins the group of its agent. */
  lemma NewIndexed(recs: Records, byAgent: map<AgentId, set<Id>>, r: Record)
    requires Indexed(recs, byAgent) && r.id !in recs
    ensures Indexed(recs[r.id := r], byAgent[r.agent := Group(byAgent, r.agent) + {r.id}])
  {
  }

  function Inserted(ids: seq<Id>, k: nat, id: Id): (r: seq<Id>)
    requires k <= |ids|
    ensures |r| == |ids| + 1
    ensures forall i :: 0 <= i < |r| ==> r[i] == if i < k then ids[i] else if i == k then id else ids[i - 1]
  {
    ids[..k] + [id] + ids[k..]
  }

  lemma InsertedMembers(ids: seq<Id>, k: nat, id: Id)
    requires k <= |ids|
    ensures forall x :: x in Inserted(ids, k, id) <==> x in ids || x == id
  {
    assert ids == ids[..k] + ids[k..];
  }

  /** Inserting a new member where its time belongs keeps the listing. */
  lemma InsertedListing(recs: Records, group: set<Id>, ids: seq<Id>, id: Id, k: nat)
    requires Listing(recs, group, ids) && id !in group && id in recs && group <= recs.Keys && k <= |ids|
    requires forall i :: 0 <= i < k ==> recs[ids[i]].issuedAt <= recs[id].issuedAt
    requires k < |ids| ==> recs[id].issuedAt < recs[ids[k]].issuedAt
    ensures Listing(recs, group + {id}, Inserted(ids, k, id))
  {
    assert forall i :: 0 <= i < |ids| ==> ids[i] in group;
    assert forall x :: x in Inserted(ids, k, id) <==> x in group + {id} by {
      InsertedMembers(ids, k, id);
    }
    InsertedOrdered(recs, ids, id, k);
  }

  lemma InsertedOrdered(recs: Records, ids: seq<Id>, id: Id, k: nat)
    requires OldestFirst(recs, ids) && id in recs && k <= |ids| && forall i :: 0 <= i < |ids| ==> ids[i] in recs
    requires forall i :: 0 <= i < k ==> recs[ids[i]].issuedAt <= recs[id].issuedAt
    requires k < |ids| ==> recs[id].issuedAt < recs[ids[k]].issuedAt
    ensures OldestFirst(recs, Inserted(ids, k, id))
  {
  }
}
