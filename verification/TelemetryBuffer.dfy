/** The disk-backed FIFO of telemetry events. */
module TelemetryBuffers {
  import opened Sequences
  import opened BufferDisk
  import opened BufferReading
  import opened BufferReload
  import opened BufferSteps

  class TelemetryBuffer {
    const settings: Settings
    const limits: Limits := MakeLimits(settings)
    var disk: Disk
    var saved: Option<seq<Cursor>>   // the queue in the state file
    var queue: seq<Cursor>
    var pending: nat
    ghost var dropped: nat           // unread events thrown away by retention so far

    ghost predicate Valid()
      reads this
    {
      WellFormed(disk, queue) && Aligned(disk, queue)
    }

    ghost function Now(): Snapshot
      reads this
    {
      Snapshot(disk, queue, pending, dropped)
    }

    /** What `take` can reach. */
    ghost function Contents(): seq<Event>
      reads this
    {
      Events(Unread(disk, queue))
    }

    /** What the buffer owes its reader: the contents, then an active file nobody queued yet. */
    ghost function Backlog(): seq<Event>
      reads this
    {
      Owed(disk, queue)
    }

    /** The state file describes the queue, and no other file lies in the directory but the active one. */
    ghost predicate Synced()
      reads this
    {
      saved == Some(queue) && Tidy(disk, queue)
    }

    /** `__init__` with `_load_state`: a process takes over the directory and the state file it finds. */
    constructor Open(settings: Settings, disk: Disk, found: Option<seq<Cursor>>)
      requires found.Some? ==> Written(found.value) && Aligned(disk, found.value)
      ensures Valid() && this.settings == settings && saved == Some(queue)
      ensures limits.maxEvents == (if settings.maxEvents > 0 then settings.maxEvents else 0)
      ensures limits.maxAge == 24.0 * 60.0 * 60.0 * if settings.maxAgeDays > 1.0 then settings.maxAgeDays else 1.0
      ensures limits.maxFileBytes >= 1024 && limits.maxFileBytes >= settings.maxFileBytes
      ensures limits.maxFileBytes == 1024 || limits.maxFileBytes == settings.maxFileBytes
      ensures limits.maxTotalBytes >= limits.maxFileBytes && limits.maxTotalBytes >= settings.maxTotalBytes
      ensures limits.maxTotalBytes == limits.maxFileBytes || limits.maxTotalBytes == settings.maxTotalBytes
      ensures Opened(disk, found, Now())
    {
      this.settings, this.disk, this.saved := settings, disk, found;
      this.queue, this.pending, this.dropped := [], 0, 0;
      new;
      var q := LoadQueue(disk, found);
      queue := q;
      pending := Count(disk, q, {});
      WriteState(NO_FAULTS);
      OpenFacts(disk, found, Now());
      LoadedAligned(disk, found, q);
    }

    /** `_append_line`: if it raises, whatever has got to the file stays there, but is not queued. */
    method AppendLine(ev: Event, now: real, io: Faults)
      requires Valid()
      modifies `disk, `queue
      ensures Valid()
      ensures Now() == AfterAppend(old(Now()), ev, now, io).(pending := pending)
    {
      var left := LineLeft(ev, io.append);
      if left.Some? {
        AppendedWellFormed(disk, queue, left.value, now);
        disk := disk[Active := File(Extended(ActiveLines(disk), left.value), now)];
      }
      if !io.append.Complete? {
        return;
      }
      if !Queued(queue, Active) {
        queue := queue + [Cursor(Active, 0)];
      }
    }

    /** The first unused name with this time stamp. */
    method FreshName(restore: bool, stamp: nat) returns (path: Path)
      ensures path !in disk && path != Active
      ensures path.Restored? == restore && path.stamp == stamp
      ensures forall n :: 0 <= n < path.n ==> (if restore then Restored(stamp, n) else Rotated(stamp, n)) in disk
    {
      var n := 0;
      path := if restore then Restored(stamp, 0) else Rotated(stamp, 0);
      while path in disk
        invariant path == if restore then Restored(stamp, n) else Rotated(stamp, n)
        invariant forall m :: 0 <= m < n ==> (if restore then Restored(stamp, m) else Rotated(stamp, m)) in disk
        decreases NamesFrom(disk, restore, stamp, n)
      {
        assert path in NamesFrom(disk, restore, stamp, n);
        assert path !in NamesFrom(disk, restore, stamp, n + 1);
        n := n + 1;
        path := if restore then Restored(stamp, n) else Rotated(stamp, n);
      }
    }

    /** `_rotate_if_needed` */
    method RotateIfNeeded(stamp: nat, io: Faults) returns (ghost target: Option<Path>)
      requires Valid()
      modifies `disk, `queue
      ensures Valid()
      ensures RotatedTo(limits, old(Now()), Now(), target, io)
    {
      target := None;
      if Active !in disk || Active in io.lost {
        return;
      }
      if Bytes(disk[Active].lines) < limits.maxFileBytes {
        return;
      }
      var rotated := FreshName(false, stamp);
      if io.rename {
        return;
      }
      RenamedWellFormed(disk, queue, rotated);
      disk := (disk - {Active})[rotated := disk[Active]];
      queue := Renamed(queue, rotated);
      target := Some(rotated);
    }

    /** `_drop_path`, for the path at index `i` of the queue. */
    method DropPath(path: Path, io: Faults, ghost i: nat)
      requires WellFormed(disk, queue)
      requires i < |queue| && queue[i].path == path
      modifies `disk, `queue, `pending, `dropped
      ensures Now() == DroppedAt(old(Now()), i, io)
    {
      dropped := dropped + |Events(Rest(disk, queue[i]))|;
      queue, pending := Without(path, io, i);
      if path !in io.stuck {
        disk := disk - {path};
      }
    }

    /** Its loop: the other cursors, and the count without the lines of this one. */
    method Without(path: Path, io: Faults, ghost i: nat) returns (remaining: seq<Cursor>, left: nat)
      requires WellFormed(disk, queue)
      requires i < |queue| && queue[i].path == path
      ensures remaining == queue[..i] + queue[i + 1..]
      ensures left == Remaining(pending, CountAt(disk, queue[i], io.lost), 0)
    {
      remaining, left := [], pending;
      var k := 0;
      while k < |queue|
        invariant k <= |queue|
        invariant remaining == if k <= i then queue[..k] else queue[..i] + queue[i + 1..k]
        invariant left == if k <= i then pending else Remaining(pending, CountAt(disk, queue[i], io.lost), 0)
      {
        if queue[k].path == path {
          assert k == i;
          var lines := CountAt(disk, queue[k], io.lost);
          left := if left < lines then 0 else left - lines;
        } else {
          remaining := remaining + [queue[k]];
        }
        k := k + 1;
      }
      assert queue[i + 1..k] == queue[i + 1..];
    }

    /** `_drop_path` inside a pruning that started from `s0`. */
    method DropAt(path: Path, io: Faults, ghost i: nat, ghost s0: Snapshot)
      requires WellFormed(s0.disk, s0.queue) && Pruned(s0, Now(), io)
      requires i < |queue| && queue[i].path == path
      modifies `disk, `queue, `pending, `dropped
      ensures Pruned(s0, Now(), io)
      ensures queue == old(queue)[..i] + old(queue)[i + 1..]
    {
      PrunedWellFormed(s0, Now(), io);
      PrunedStep(s0, Now(), io, i);
      DropPath(path, io, i);
    }

    /** Some files of the queue are dropped, as in a pruning that is cut short; `_drop_path` ignores any other. */
    method DropSome(victims: seq<Path>, io: Faults, ghost s0: Snapshot)
      requires WellFormed(s0.disk, s0.queue) && Pruned(s0, Now(), io)
      modifies `disk, `queue, `pending, `dropped
      ensures Pruned(s0, Now(), io)
    {
      for k := 0 to |victims|
        invariant Pruned(s0, Now(), io)
      {
        if Queued(queue, victims[k]) {
          ghost var i :| 0 <= i < |queue| && queue[i].path == victims[k];
          DropAt(victims[k], io, i, s0);
        }
      }
    }

    /** The age stage of `_prune`: passes over the queue until one drops nothing. */
    method PruneByAge(now: real, io: Faults)
      requires WellFormed(disk, queue)
      modifies `disk, `queue, `pending, `dropped
      ensures WellFormed(disk, queue)
      ensures queue == AgeKept(old(disk), old(queue), now - limits.maxAge, io.lost)
      ensures Pruned(old(Now()), Now(), io)
    {
      ghost var s0 := Now();
      var cutoff := now - limits.maxAge;
      PrunedRefl(s0, io);
      ghost var kept := AgeKept(s0.disk, s0.queue, cutoff, io.lost);
      AgeKeptFresh(s0.disk, s0.queue, cutoff, io.lost);
      AgeKeptFresh(s0.disk, kept, cutoff, io.lost);
      var changed := true;
      while changed
        invariant Pruned(s0, Now(), io)
        invariant queue == s0.queue || queue == kept
        invariant !changed ==> queue == kept
        decreases 2 * |queue| + if changed then 1 else 0
      {
        changed := PruneByAgeOnce(cutoff, io, s0);
      }
      PrunedWellFormed(s0, Now(), io);
    }

    /** One pass over a copy of the queue. */
    method PruneByAgeOnce(cutoff: real, io: Faults, ghost s0: Snapshot) returns (changed: bool)
      requires WellFormed(s0.disk, s0.queue) && Pruned(s0, Now(), io)
      modifies `disk, `queue, `pending, `dropped
      ensures Pruned(s0, Now(), io)
      ensures queue == AgeKept(s0.disk, old(queue), cutoff, io.lost)
      ensures if changed then |queue| < |old(queue)| else queue == old(queue)
    {
      changed := false;
      var all := queue;
      ghost var kept: seq<Cursor> := [];
      var k := 0;
      while k < |all|
        invariant k <= |all|
        invariant AgeScan(s0, all, k, kept, changed, cutoff, io)
      {
        kept, changed := ScanByAge(all, k, cutoff, io, kept, changed, s0);
        k := k + 1;
      }
      AgeScanned(s0, all, kept, changed, cutoff, io);
    }

    lemma AgeScanned(s0: Snapshot, all: seq<Cursor>, kept: seq<Cursor>, changed: bool, cutoff: real, io: Faults)
      requires AgeScan(s0, all, |all|, kept, changed, cutoff, io)
      ensures queue == kept == AgeKept(s0.disk, all, cutoff, io.lost) && Pruned(s0, Now(), io)
      ensures if changed then |queue| < |all| else queue == all
    {
      assert all[..|all|] == all && kept + all[|all|..] == kept;
    }

    /** `kept` is what survives of the first `k` cursors of `all`; the others are still queued behind it. */
    ghost predicate AgeScan(s0: Snapshot, all: seq<Cursor>, k: nat, kept: seq<Cursor>, changed: bool, cutoff: real, io: Faults)
      requires k <= |all|
      reads this
    {
      && kept == AgeKept(s0.disk, all[..k], cutoff, io.lost)
      && queue == kept + all[k..]
      && Pruned(s0, Now(), io)
      && Skipped(changed, kept, all, k)
    }

    /** One round of the pass. */
    method ScanByAge(all: seq<Cursor>, k: nat, cutoff: real, io: Faults, ghost kept: seq<Cursor>, changed: bool,
                     ghost s0: Snapshot)
      returns (ghost kept': seq<Cursor>, changed': bool)
      requires WellFormed(s0.disk, s0.queue) && k < |all| && AgeScan(s0, all, k, kept, changed, cutoff, io)
      modifies `disk, `queue, `pending, `dropped
      ensures AgeScan(s0, all, k + 1, kept', changed', cutoff, io)
    {
      AgeKeptNext(s0.disk, all, k, cutoff, io.lost, kept, changed);
      var stale := VisitByAge(all[k], cutoff, io, kept, all[k..], s0);
      kept' := if stale then kept else kept + [all[k]];
      changed' := changed || stale;
    }

    method VisitByAge(c: Cursor, cutoff: real, io: Faults, ghost kept: seq<Cursor>, ghost rest: seq<Cursor>,
                      ghost s0: Snapshot)
      returns (stale: bool)
      requires WellFormed(s0.disk, s0.queue) && Pruned(s0, Now(), io)
      requires rest != [] && c == rest[0] && queue == kept + rest
      modifies `disk, `queue, `pending, `dropped
      ensures Pruned(s0, Now(), io)
      ensures stale <==> !Fresh(s0.disk, c, cutoff, io.lost)
      ensures queue == (if stale then kept else kept + [c]) + rest[1..]
    {
      assert queue[|kept|] == c;
      assert c.path in disk && c.path in s0.disk && disk[c.path] == s0.disk[c.path] by {
        PrunedWellFormed(s0, Now(), io);
      }
      stale := c.path != Active && (c.path in io.lost || disk[c.path].mtime < cutoff);
      if stale {
        RemoveAfter(kept, rest);
        DropAt(c.path, io, |kept|, s0);
      } else {
        assert kept + rest == (kept + [c]) + rest[1..];
      }
    }

    /** The cap stages of `_prune`: drop the front while a cap is exceeded, and no further. */
    method PruneByCaps(io: Faults) returns (ghost k: nat)
      requires WellFormed(disk, queue)
      modifies `disk, `queue, `pending, `dropped
      ensures CutBack(limits, old(Now()), Now(), k, io) && WithinCaps(limits, Now(), io.lost)
    {
      ghost var s0 := Now();
      PrunedRefl(s0, io);
      k := PruneByBytes(io, s0);
      if limits.maxEvents > 0 {
        k := PruneByCount(io, k, s0);
      }
    }

    method PruneByBytes(io: Faults, ghost s0: Snapshot) returns (ghost k: nat)
      requires WellFormed(s0.disk, s0.queue) && CutBack(limits, s0, Now(), 0, io)
      modifies `disk, `queue, `pending, `dropped
      ensures CutBack(limits, s0, Now(), k, io)
      ensures queue == [] || Size(disk, queue, io.lost) <= limits.maxTotalBytes
    {
      k := 0;
      while Size(disk, queue, io.lost) > limits.maxTotalBytes && queue != []
        invariant CutBack(limits, s0, Now(), k, io)
        decreases |queue|
      {
        DropFront(io, k, s0);
        k := k + 1;
      }
    }

    method PruneByCount(io: Faults, ghost k0: nat, ghost s0: Snapshot) returns (ghost k: nat)
      requires WellFormed(s0.disk, s0.queue) && CutBack(limits, s0, Now(), k0, io) && limits.maxEvents > 0
      requires queue == [] || Size(disk, queue, io.lost) <= limits.maxTotalBytes
      modifies `disk, `queue, `pending, `dropped
      ensures CutBack(limits, s0, Now(), k, io)
      ensures queue == [] || (Size(disk, queue, io.lost) <= limits.maxTotalBytes && pending <= limits.maxEvents)
    {
      k := k0;
      while pending > limits.maxEvents && queue != []
        invariant CutBack(limits, s0, Now(), k, io)
        invariant queue == [] || Size(disk, queue, io.lost) <= limits.maxTotalBytes
        decreases |queue|
      {
        DropFront(io, k, s0);
        k := k + 1;
      }
    }

    method DropFront(io: Faults, ghost k: nat, ghost s0: Snapshot)
      requires WellFormed(s0.disk, s0.queue) && Pruned(s0, Now(), io)
      requires k < |s0.queue| && queue == s0.queue[k..]
      requires Size(disk, queue, io.lost) > limits.maxTotalBytes || (limits.maxEvents > 0 && pending > limits.maxEvents)
      modifies `disk, `queue, `pending, `dropped
      ensures Pruned(s0, Now(), io)
      ensures queue == s0.queue[k + 1..]
      ensures OverCaps(limits, s0, s0.queue[k..], io.lost)
      ensures Size(disk, queue, io.lost) <= Size(old(disk), old(queue), io.lost)
    {
      assert OverCaps(limits, s0, s0.queue[k..], io.lost)
        && Size(disk, queue, io.lost) == SizeAt(s0.disk, queue[0], io.lost) + Size(s0.disk, s0.queue[k + 1..], io.lost) by {
        PrunedFrame(s0, Now(), queue, io);
        assert queue[1..] == s0.queue[k + 1..];
      }
      DropAt(queue[0].path, io, 0, s0);
      assert Size(disk, queue, io.lost) == Size(s0.disk, queue, io.lost) by {
        PrunedFrame(s0, Now(), queue, io);
      }
    }

    /** `_prune` */
    method Prune(now: real, io: Faults)
      requires Valid()
      modifies `disk, `queue, `pending, `dropped
      ensures Valid()
      ensures PrunedBy(limits, old(Now()), Now(), now, io)
    {
      ghost var s0 := Now();
      PruneByAge(now, io);
      ghost var s1 := Now();
      ghost var k := PruneByCaps(io);
      PruneStages(limits, s0, s1, Now(), k, now, io);
      PrunedAligned(s0, Now(), io);
    }

    /** `_write_state` */
    method WriteState(io: Faults)
      modifies `saved
      ensures saved == if io.save then old(saved) else Some(queue)
    {
      if !io.save {
        saved := Some(queue);
      }
    }

    /** `put` */
    method Put(ev: Event, now: real, stamp: nat, io: Faults)
      requires Valid()
      modifies this
      ensures Valid()
      ensures PutOutcome(limits, old(Now()), Now(), ev, now, io)
      ensures AsConfigured(settings, Now(), now, io.lost)
      ensures saved == if io.save then old(saved) else Some(queue)
    {
      PutUnsaved(ev, now, stamp, io);
      Configured(settings, Now(), now, io.lost);
      WriteState(io);
    }

    /** All of it but the state write. */
    method PutUnsaved(ev: Event, now: real, stamp: nat, io: Faults)
      requires Valid()
      modifies `disk, `queue, `pending, `dropped
      ensures Valid()
      ensures PutOutcome(limits, old(Now()), Now(), ev, now, io)
    {
      ghost var s0 := Now();
      ghost var s1, s2, target := PutPhases(ev, now, stamp, io);
      PutFacts(limits, s0, s1, s2, Now(), target, ev, now, io);
    }

    /** Its three phases: the line is written, a full file rotated, and the queue pruned. */
    method PutPhases(ev: Event, now: real, stamp: nat, io: Faults)
      returns (ghost s1: Snapshot, ghost s2: Snapshot, ghost target: Option<Path>)
      requires Valid()
      modifies `disk, `queue, `pending, `dropped
      ensures Valid()
      ensures Appended(old(Now()), s1, ev, now, io)
      ensures RotatedTo(limits, s1, s2, target, io)
      ensures PrunedBy(limits, s2, Now(), now, io)
    {
      s1, target := PutLine(ev, now, stamp, io);
      s2 := Now();
      Prune(now, io);
    }

    /** The line is appended and counted, and the file rotated if it is full. */
    method PutLine(ev: Event, now: real, stamp: nat, io: Faults) returns (ghost s1: Snapshot, ghost target: Option<Path>)
      requires Valid()
      modifies `disk, `queue, `pending
      ensures Valid()
      ensures Appended(old(Now()), s1, ev, now, io) && RotatedTo(limits, s1, Now(), target, io)
    {
      AppendLine(ev, now, io);
      pending := pending + 1;
      s1 := Now();
      target := RotateIfNeeded(stamp, io);
    }

    /** `_read_front` with `consume` set: pops the files it finishes and moves the cursor of the next one. */
    method ReadFront(n: nat, now: real, io: Faults) returns (batch: seq<Event>, ghost j: nat)
      requires Valid()
      modifies `disk, `queue, `pending
      ensures Valid()
      ensures ReadOut(old(disk), old(queue), n, batch, j, queue, io)
      ensures disk == Finished(old(disk), old(queue)[..j], now, io)
      ensures pending == Less(old(pending), |batch|)
    {
      batch := [];
      j := 0;
      ghost var d0, q0 := disk, queue;
      ReadingStarts(d0, q0, n, now, io);
      if n <= 0 || queue == [] {
        ReadingDone(d0, q0, n, batch, j, q0, disk, now, io);
      }
      if n <= 0 || queue == [] {
        return;
      }
      var q := queue;
      while |batch| < n && q != []
        invariant queue == q0 && pending == old(pending)
        invariant Reading(d0, q0, n, batch, j, q, disk, now, io)
        decreases |q|, n - |batch|
      {
        batch, j, q := ReadRound(d0, q0, n, batch, j, q, now, io);
      }
      ReadingDone(d0, q0, n, batch, j, q, disk, now, io);
      queue := q;
      pending := if pending < |batch| then 0 else pending - |batch|;
      ReadToUnread(d0, q0, j, q, now, io);
      ReadToAligned(d0, q0, j, q, now, io);
    }

    /** One round of the outer loop. */
    method ReadRound(ghost d0: Disk, ghost q0: seq<Cursor>, n: nat, batch: seq<Event>, ghost j: nat, q: seq<Cursor>,
                     now: real, io: Faults)
      returns (batch': seq<Event>, ghost j': nat, q': seq<Cursor>)
      requires Reading(d0, q0, n, batch, j, q, disk, now, io) && |batch| < n && q != []
      modifies `disk
      ensures Reading(d0, q0, n, batch', j', q', disk, now, io)
      ensures |q'| < |q| || (|q'| == |q| && |batch'| > |batch|)
    {
      ghost var d := disk;
      ReadingFront(d0, q0, n, batch, j, q, disk, now, io);
      var got, pos, popped := ReadFile(q[0].path, q[0].off, n - |batch|, now, io);
      batch' := batch + got;
      if popped {
        ReadingPop(d0, q0, n, batch, j, q, d, got, now, io);
        return batch', j + 1, q[1..];
      } else {
        ReadingFill(d0, q0, n, batch, j, q, d, got, pos, now, io);
        return batch', j, [Cursor(q[0].path, pos)] + q[1..];
      }
    }

    /** The body of the outer loop: read the front file, and dispose of it when its end was seen. */
    method ReadFile(path: Path, off: nat, room: nat, now: real, io: Faults)
      returns (got: seq<Event>, pos: nat, popped: bool)
      requires path in disk && off <= |disk[path].lines| && room > 0
      modifies `disk
      ensures path in io.lost ==> got == [] && popped
      ensures path !in io.lost ==>
        && off <= pos <= |old(disk)[path].lines|
        && got == Events(old(disk)[path].lines[off..pos])
        && (popped ==> got == Events(old(disk)[path].lines[off..]) && |got| < room)
        && (!popped ==> |got| == room && pos > 0 && old(disk)[path].lines[pos - 1].Record?)
      ensures |got| <= room
      ensures disk == if popped then FinishedOne(old(disk), path, now, io) else old(disk)
    {
      if path in io.lost {
        return [], off, true;
      }
      got, pos, popped := ReadLines(disk[path].lines, off, room);
      assert disk[path].lines[off..|disk[path].lines|] == disk[path].lines[off..];
      if popped && path !in io.stuck {
        if path != Active {
          disk := disk - {path};
        } else {
          disk := disk[Active := File([], now)];
        }
      }
    }

    /** `take` */
    method Take(n: nat, now: real, io: Faults) returns (batch: seq<Event>)
      requires Valid()
      modifies `disk, `queue, `pending, `saved
      ensures Valid()
      ensures TakeDelivers(old(Now()), Now(), n, batch, io)
      ensures TakeLoses(old(Now()), Now(), n, batch, io)
      ensures TakeRepeats(old(Now()), Now(), n, batch, io) && TakeRepeatsUnopened(old(Now()), Now(), n, batch, io)
      ensures TakeKeeps(limits, old(Now()), Now(), batch, io)
      ensures saved == if io.save then old(saved) else Some(queue)
    {
      batch := TakeUnsaved(n, now, io);
      WriteState(io);
    }

    /** All of it but the state write. */
    method TakeUnsaved(n: nat, now: real, io: Faults) returns (batch: seq<Event>)
      requires Valid()
      modifies `disk, `queue, `pending
      ensures Valid()
      ensures TakeDelivers(old(Now()), Now(), n, batch, io)
      ensures TakeLoses(old(Now()), Now(), n, batch, io)
      ensures TakeRepeats(old(Now()), Now(), n, batch, io) && TakeRepeatsUnopened(old(Now()), Now(), n, batch, io)
      ensures TakeKeeps(limits, old(Now()), Now(), batch, io)
    {
      ghost var s0 := Now();
      ghost var j;
      batch, j := ReadFront(n, now, io);
      TakeFacts(limits, s0, Now(), n, batch, j, now, io);
    }

    /** `flush_to_ws`, when the first `good` sends are confirmed and the next one raises. */
    method FlushToWs(good: nat, now: real, stamp: nat, io: Faults) returns (sent: nat)
      requires Valid()
      modifies this
      ensures Valid()
      ensures Active !in io.lost + io.stuck ==>
        sent <= |old(Backlog())| && IsSubseq(Backlog(), old(Backlog())[sent..])
      ensures io == NO_FAULTS ==> sent == if good < |old(Contents())| then good else |old(Contents())|
      ensures io == NO_FAULTS
        && (good < |old(Contents())| ==> old(Roomy(limits, Now(), now, |Contents()[good]| + 1, 0)))
        ==> Contents() == old(Contents())[sent..] && Backlog() == old(Backlog())[sent..]
      ensures CountKept(old(Now()), Now(), io)
    {
      sent := 0;
      ghost var s0 := Now();
      ghost var b0, c0 := Backlog(), Contents();
      ghost var need := if good < |c0| then |c0[good]| + 1 else 0;
      ghost var roomy := Roomy(limits, Now(), now, need, 0);
      SubseqRefl(b0);
      assert b0[0..] == b0 && c0[0..] == c0;
      var more := true;
      while more
        invariant Valid() && sent <= good && CountKept(s0, Now(), io)
        invariant if more then FlushingRoomy(sent, b0, c0, now, need, roomy, io) else Flushed(sent, good, b0, c0, roomy, io)
        decreases good - sent + if more then 1 else 0
      {
        ghost var s1 := Now();
        sent, more := FlushNext(sent, good, b0, c0, now, stamp, need, roomy, io);
        CountKeptTrans(s0, s1, Now(), io);
      }
    }

    /** One round of the loop of `flush_to_ws`. */
    method FlushNext(sent: nat, good: nat, ghost b0: seq<Event>, ghost c0: seq<Event>, now: real, stamp: nat,
                     ghost need: nat, ghost roomy: bool, io: Faults)
      returns (sent': nat, more: bool)
      requires Valid() && sent <= good && FlushingRoomy(sent, b0, c0, now, need, roomy, io)
      requires need == if good < |c0| then |c0[good]| + 1 else 0
      modifies this
      ensures Valid() && sent' <= good && sent' == if more then sent + 1 else sent
      ensures if more then FlushingRoomy(sent', b0, c0, now, need, roomy, io) else Flushed(sent', good, b0, c0, roomy, io)
      ensures CountKept(old(Now()), Now(), io)
    {
      ghost var s0 := Now();
      var batch := FlushTake(sent, b0, c0, now, io);
      if batch == [] {
        return sent, false;
      }
      if sent == good {
        ghost var s1 := Now();
        FlushBack(batch, sent, b0, c0, now, stamp, io);
        CountKeptTrans(s0, s1, Now(), io);
        return sent, false;
      }
      return sent + 1, true;
    }

    ghost predicate FlushingRoomy(sent: nat, b0: seq<Event>, c0: seq<Event>, now: real, need: nat, roomy: bool, io: Faults)
      reads this
    {
      Flushing(sent, b0, c0, io) && (io == NO_FAULTS && roomy ==> Roomy(limits, Now(), now, need, 0))
    }

    /** The flush ended after `sent` events: all of them, or the next one was put back. */
    ghost predicate Flushed(sent: nat, good: nat, b0: seq<Event>, c0: seq<Event>, roomy: bool, io: Faults)
      reads this
    {
      && (Active !in io.lost + io.stuck ==> sent <= |b0| && IsSubseq(Backlog(), b0[sent..]))
      && (io == NO_FAULTS ==> sent == if good < |c0| then good else |c0|)
      && (io == NO_FAULTS && (good < |c0| ==> roomy) ==> Contents() == c0[sent..] && Backlog() == b0[sent..])
    }

    /** `sent` events into a flush that found the backlog `b0` and the contents `c0`. */
    ghost predicate Flushing(sent: nat, b0: seq<Event>, c0: seq<Event>, io: Faults)
      reads this
    {
      && (Active !in io.lost + io.stuck ==> sent <= |b0| && IsSubseq(Backlog(), b0[sent..]))
      && (io == NO_FAULTS ==> sent <= |c0| && Contents() == c0[sent..] && Backlog() == b0[sent..])
    }

    /** The `take(1)` of `flush_to_ws`. */
    method FlushTake(sent: nat, ghost b0: seq<Event>, ghost c0: seq<Event>, now: real, io: Faults)
      returns (batch: seq<Event>)
      requires Valid() && Flushing(sent, b0, c0, io)
      modifies `disk, `queue, `pending, `saved
      ensures Valid()
      ensures batch == [] ==> Flushing(sent, b0, c0, io) && (io == NO_FAULTS ==> sent == |c0|)
      ensures batch != [] ==> Flushing(sent + 1, b0, c0, io) && |batch| == 1
      ensures batch != [] && Active !in io.lost + io.stuck ==> sent <= |b0| && IsSubseq(batch + Backlog(), b0[sent..])
      ensures batch != [] && io == NO_FAULTS ==> batch == [c0[sent]] && batch + Backlog() == b0[sent..]
      ensures io == NO_FAULTS ==> KeepsRoom(limits, old(Now()), Now(), |batch|)
      ensures CountKept(old(Now()), Now(), io)
    {
      ghost var b1 := Backlog();
      FullUnread(disk, queue);
      batch := Take(1, now, io);
      FlushedOne(sent, b0, c0, b1, batch, io);
    }

    lemma FlushedOne(sent: nat, b0: seq<Event>, c0: seq<Event>, b1: seq<Event>, batch: seq<Event>, io: Faults)
      requires |batch| <= 1
      requires Active !in io.lost + io.stuck ==>
        sent <= |b0| && IsSubseq(b1, b0[sent..]) && IsSubseq(batch + Backlog(), b1)
      requires io == NO_FAULTS ==>
        && sent <= |c0| && b1 == b0[sent..] && batch + Backlog() == b1
        && |batch| == (if sent < |c0| then 1 else 0) && batch + Contents() == c0[sent..]
      ensures Flushing(sent + |batch|, b0, c0, io)
      ensures io == NO_FAULTS && batch != [] ==> batch == [c0[sent]]
      ensures Active !in io.lost + io.stuck ==> IsSubseq(batch + Backlog(), b0[sent..])
    {
      if Active !in io.lost + io.stuck {
        SubseqTrans(batch + Backlog(), b1, b0[sent..]);
        if batch == [] {
          assert batch + Backlog() == Backlog();
        } else {
          assert batch == [batch[0]];
          SubseqTail(batch[0], Backlog(), b0[sent..]);
          assert b0[sent..][1..] == b0[sent + 1..];
        }
      }
      if io == NO_FAULTS {
        assert Backlog() == (batch + Backlog())[|batch|..] == b0[sent..][|batch|..] == b0[sent + |batch|..];
        assert Contents() == (batch + Contents())[|batch|..] == c0[sent..][|batch|..] == c0[sent + |batch|..];
        assert batch != [] ==> batch[0] == (batch + Contents())[0] == c0[sent];
      }
    }

    /** The `restore` of `flush_to_ws` after a send that raised. */
    method FlushBack(batch: seq<Event>, sent: nat, ghost b0: seq<Event>, ghost c0: seq<Event>, now: real, stamp: nat, io: Faults)
      requires Valid() && |batch| == 1
      requires Active !in io.lost + io.stuck ==> sent <= |b0| && IsSubseq(batch + Backlog(), b0[sent..])
      requires io == NO_FAULTS ==>
        sent < |c0| && batch == [c0[sent]] && Contents() == c0[sent + 1..] && batch + Backlog() == b0[sent..]
      modifies this
      ensures Valid()
      ensures Active !in io.lost + io.stuck ==> IsSubseq(Backlog(), b0[sent..])
      ensures io == NO_FAULTS && old(Roomy(limits, Now(), now, |batch[0]| + 1, 1)) ==> Flushing(sent, b0, c0, io)
      ensures CountKept(old(Now()), Now(), io)
    {
      ghost var s0 := Now();
      ghost var path := Restore(batch, now, stamp, io);
      FlushedBack(s0, path, batch, sent, b0, c0, now, io);
    }

    lemma FlushedBack(s0: Snapshot, path: Path, batch: seq<Event>, sent: nat, b0: seq<Event>, c0: seq<Event>, now: real, io: Faults)
      requires |batch| == 1 && RestoreOutcome(limits, s0, Now(), path, batch, now, io)
      requires Active !in io.lost + io.stuck ==> sent <= |b0| && IsSubseq(batch + Due(s0), b0[sent..])
      requires io == NO_FAULTS ==>
        sent < |c0| && batch == [c0[sent]] && Content(s0) == c0[sent + 1..] && batch + Due(s0) == b0[sent..]
      ensures Active !in io.lost + io.stuck ==> IsSubseq(Backlog(), b0[sent..])
      ensures io == NO_FAULTS && Roomy(limits, s0, now, |batch[0]| + 1, 1) ==> Flushing(sent, b0, c0, io)
      ensures CountKept(s0, Now(), io)
    {
      RestoreOrderKept(limits, s0, Now(), path, batch, now, io);
      if Active !in io.lost + io.stuck {
        SubseqTrans(Backlog(), batch + Due(s0), b0[sent..]);
      }
      if io == NO_FAULTS && Roomy(limits, s0, now, |batch[0]| + 1, 1) {
        RecordBytes(batch);
        RestoredWhole(limits, s0, Now(), path, batch, now);
        assert batch + c0[sent + 1..] == c0[sent..];
      }
    }

    /** `restore`: if the write raises, whatever has got to its file stays there, but is not queued. */
    method Restore(events: seq<Event>, now: real, stamp: nat, io: Faults) returns (ghost path: Path)
      requires Valid()
      modifies this
      ensures Valid() && !path.Rotated? && (events != [] ==> path.Restored? && path !in old(disk))
      ensures RestoreOutcome(limits, old(Now()), Now(), path, events, now, io)
      ensures events != [] && io.write.Whole? ==> AsConfigured(settings, Now(), now, io.lost)
      ensures saved == if events == [] || !io.write.Whole? || io.save then old(saved) else Some(queue)
    {
      path := Active;
      NothingToRestore(limits, Now(), path, now, io);
      if events == [] {
        return;
      }
      var file := FreshName(true, stamp);
      path := file;
      if !io.write.Whole? {
        BreakOff(events, file, now, io);
        return;
      }
      RestoreUnsaved(events, file, now, io);
      Configured(settings, Now(), now, io.lost);
      WriteState(io);
    }

    method BreakOff(events: seq<Event>, path: Path, now: real, io: Faults)
      requires Valid() && events != [] && path != Active && path !in disk && !io.write.Whole?
      modifies `disk
      ensures Valid()
      ensures RestoreOutcome(limits, old(Now()), Now(), path, events, now, io)
    {
      FailedWrite(limits, Now(), path, events, now, io);
      var left := LinesLeft(events, io.write);
      if left.Some? {
        disk := disk[path := File(left.value, now)];
      }
    }

    /** All of it but the state write. */
    method RestoreUnsaved(events: seq<Event>, path: Path, now: real, io: Faults)
      requires Valid() && events != [] && path != Active && path !in disk && io.write.Whole?
      modifies `disk, `queue, `pending, `dropped
      ensures Valid()
      ensures RestoreOutcome(limits, old(Now()), Now(), path, events, now, io)
    {
      ghost var s0 := Now();
      QueueRestored(events, path, now);
      ghost var s1 := Now();
      Prune(now, io);
      RestoreFacts(limits, s0, s1, Now(), path, events, now, io);
    }

    /** The file is written and queued in front, and its events counted. */
    method QueueRestored(events: seq<Event>, path: Path, now: real)
      requires Valid() && path != Active && path !in disk
      modifies `disk, `queue, `pending
      ensures Valid() && Now() == AfterPutBack(old(Now()), path, events, now)
    {
      ghost var s0 := Now();
      disk := disk[path := File(Records(events), now)];
      queue := [Cursor(path, 0)] + queue;
      pending := pending + |events|;
      PutBackUnread(s0, Now(), path, events, now);
    }
  }

  /** The queue that `_load_state` builds: the saved cursors, or else what the directory holds. */
  method LoadQueue(d: Disk, found: Option<seq<Cursor>>) returns (q: seq<Cursor>)
    requires found.Some? ==> Written(found.value)
    ensures Loaded(d, found, q)
  {
    q := [];
    if found.Some? {
      q := KnownFiles(d, found.value);
    }
    if q == [] {
      q := DiscoverFiles(d);
    }
  }

  /** The loop of `_load_state` over the saved cursors. */
  method KnownFiles(d: Disk, found: seq<Cursor>) returns (q: seq<Cursor>)
    ensures q == Recovered(d, found)
  {
    q := [];
    var k := 0;
    assert found[0..] == found;
    while k < |found|
      invariant k <= |found|
      invariant q + Recovered(d, found[k..]) == Recovered(d, found)
    {
      var c := found[k];
      assert found[k..][1..] == found[k + 1..];
      ghost var head := RecoveredOne(d, c);
      ConcatAssoc(q, head, Recovered(d, found[k + 1..]));
      if c.path in d {
        var off := if c.off > |d[c.path].lines| then 0 else c.off;
        q := q + [Cursor(c.path, off)];
      } else {
        assert q + head == q;
      }
      k := k + 1;
    }
  }

  /** `_discover_files`, the order among files of one kind left open. */
  method DiscoverFiles(d: Disk) returns (q: seq<Cursor>)
    ensures Discovered(d, q)
  {
    var restored := CursorsOf(d, set p | p in d && p.Restored?);
    var rotated := CursorsOf(d, set p | p in d && p.Rotated?);
    q := restored + rotated;
    if Active in d {
      q := q + [Cursor(Active, 0)];
    }
    JoinDiscovered(d, restored, rotated);
  }

  lemma JoinDiscovered(d: Disk, restored: seq<Cursor>, rotated: seq<Cursor>)
    requires Paths(restored) == (set p | p in d && p.Restored?) && Paths(rotated) == (set p | p in d && p.Rotated?)
    requires DistinctPaths(restored) && DistinctPaths(rotated)
    requires forall i :: 0 <= i < |restored| ==> restored[i].off == 0 && restored[i].path in Paths(restored)
    requires forall i :: 0 <= i < |rotated| ==> rotated[i].off == 0 && rotated[i].path in Paths(rotated)
    ensures Discovered(d, restored + rotated + if Active in d then [Cursor(Active, 0)] else [])
  {
    var last := if Active in d then [Cursor(Active, 0)] else [];
    var files := restored + rotated;
    var q := files + last;
    assert Paths(q) == d.Keys && DistinctPaths(q) by {
      JoinQueues(restored, rotated);
      JoinQueues(files, last);
      assert Paths(last) == (if Active in d then {Active} else {}) by {
        if Active in d {
          assert last[0].path == Active;
        }
      }
    }
    forall i | 0 <= i < |q|
      ensures q[i].off == 0 && q[i].path in d
      ensures i < |restored| ==> q[i].path.Restored?
      ensures i >= |restored| ==> !q[i].path.Restored?
      ensures i < |files| ==> q[i].path != Active
    {
      assert q[i] == if i < |restored| then restored[i] else if i < |files| then rotated[i - |restored|] else last[i - |files|];
    }
  }

  predicate DistinctPaths(q: seq<Cursor>) {
    forall i, j :: 0 <= i < j < |q| ==> q[i].path != q[j].path
  }

  lemma JoinQueues(a: seq<Cursor>, b: seq<Cursor>)
    ensures Paths(a + b) == Paths(a) + Paths(b)
    ensures Paths(a) !! Paths(b) && DistinctPaths(a) && DistinctPaths(b) ==> DistinctPaths(a + b)
  {
    var q := a + b;
    forall i | 0 <= i < |a| ensures a[i].path in Paths(q) {
      assert q[i] == a[i];
    }
    forall i | 0 <= i < |b| ensures b[i].path in Paths(q) {
      assert q[|a| + i] == b[i];
    }
    if Paths(a) !! Paths(b) && DistinctPaths(a) && DistinctPaths(b) {
      forall i, j | 0 <= i < j < |q| ensures q[i].path != q[j].path {
        if i < |a| <= j {
          assert q[i].path in Paths(a) && q[j].path in Paths(b);
        }
      }
    }
  }

  lemma OpenFacts(d: Disk, found: Option<seq<Cursor>>, s: Snapshot)
    requires found.Some? ==> Written(found.value)
    requires Loaded(d, found, s.queue)
    requires s.disk == d && s.dropped == 0 && s.pending == Count(d, s.queue, {})
    ensures Opened(d, found, s)
  {
    var q := s.queue;
    if found.Some? {
      RecoveredWellFormed(d, found.value);
      if WellFormed(d, found.value) && Tidy(d, found.value) {
        ReloadSame(d, found.value, q);
      }
    }
    StrayIff(d, found, q);
    CountIsNonBlank(d, q);
    FullUnread(d, q);
  }

  method CursorsOf(d: Disk, paths: set<Path>) returns (q: seq<Cursor>)
    ensures Paths(q) == paths
    ensures DistinctPaths(q)
    ensures forall i :: 0 <= i < |q| ==> q[i].off == 0 && q[i].path in paths
  {
    q := [];
    var rest := paths;
    while rest != {}
      invariant rest <= paths && Paths(q) == paths - rest
      invariant DistinctPaths(q)
      invariant forall i :: 0 <= i < |q| ==> q[i].off == 0 && q[i].path in paths - rest
      decreases rest
    {
      var p :| p in rest;
      ghost var before := q;
      q := q + [Cursor(p, 0)];
      assert q[|before|].path == p;
      assert Paths(q) == Paths(before) + {p} by {
        forall i | 0 <= i < |before| ensures before[i].path in Paths(q) {
          assert q[i] == before[i];
        }
      }
      rest := rest - {p};
    }
  }

  /** The inner loop of `_read_front` over one open file: events until there are enough, or the end of the file. */
  method ReadLines(lines: seq<Line>, off: nat, room: nat) returns (got: seq<Event>, pos: nat, eof: bool)
    requires off <= |lines|
    ensures off <= pos <= |lines|
    ensures got == Events(lines[off..pos])
    ensures |got| <= room
    ensures eof ==> pos == |lines| && |got| < room
    ensures !eof ==> |got| == room && (room > 0 ==> pos > 0 && lines[pos - 1].Record?)
  {
    got, pos, eof := [], off, false;
    assert lines[off..off] == [];
    while |got| < room
      invariant off <= pos <= |lines| && |got| <= room
      invariant got != [] && |got| == room ==> pos > 0 && lines[pos - 1].Record?
      invariant got == Events(lines[off..pos])
      decreases |lines| - pos
    {
      if pos == |lines| {
        eof := true;
        break;
      }
      var line := lines[pos];
      assert lines[off..pos + 1] == lines[off..pos] + [line];
      EventsConcat(lines[off..pos], [line]);
      assert [line][1..] == [];
      pos := pos + 1;
      if line.Record? {
        got := got + [line.ev];
      }
    }
  }

  lemma RestoredWhole(limits: Limits, s0: Snapshot, s: Snapshot, path: Path, events: seq<Event>, now: real)
    requires RestoreOutcome(limits, s0, s, path, events, now, NO_FAULTS)
    requires Roomy(limits, s0, now, Bytes(Records(events)), |events|)
    ensures Due(s) == events + Due(s0) && Content(s) == events + Content(s0)
  {
    assert [] + Due(s0) == Due(s0) && [] + Content(s0) == Content(s0);
  }

  lemma RecordBytes(batch: seq<Event>)
    requires |batch| == 1
    ensures Bytes(Records(batch)) == |batch[0]| + 1
  {
    assert Records(batch)[1..] == [];
  }

  ghost function NamesFrom(d: Disk, restore: bool, stamp: nat, n: nat): set<Path> {
    set p | p in d && p != Active && p.Restored? == restore && p.stamp == stamp && n <= p.n
  }

  /** `kept` is the first `k` of `all`, or, once something was dropped, shorter. */
  ghost predicate Skipped(changed: bool, kept: seq<Cursor>, all: seq<Cursor>, k: nat)
    requires k <= |all|
  {
    if changed then |kept| < k else kept == all[..k]
  }

  lemma AgeKeptNext(d: Disk, all: seq<Cursor>, k: nat, cutoff: real, lost: set<Path>, kept: seq<Cursor>, changed: bool)
    requires k < |all| && kept == AgeKept(d, all[..k], cutoff, lost) && Skipped(changed, kept, all, k)
    ensures var young := Fresh(d, all[k], cutoff, lost);
      var kept' := if young then kept + [all[k]] else kept;
      && kept' == AgeKept(d, all[..k + 1], cutoff, lost)
      && Skipped(changed || !young, kept', all, k + 1)
    ensures all[k..] != [] && all[k..][0] == all[k] && all[k..][1..] == all[k + 1..]
  {
    assert all[..k + 1] == all[..k] + [all[k]];
    AgeKeptConcat(d, all[..k], [all[k]], cutoff, lost);
    assert [all[k]][1..] == [];
  }

  lemma RemoveAfter<T>(a: seq<T>, b: seq<T>)
    requires b != []
    ensures (a + b)[..|a|] + (a + b)[|a| + 1..] == a + b[1..]
  {
  }
}
