/** The stages of `put` and `restore` on snapshots, and what each contributes to their contracts. */
module BufferSteps {
  import opened Sequences
  import opened BufferDisk
  import opened BufferReading

  datatype Limits = Limits(
    maxEvents: nat,        // 0: no cap by count
    maxAge: real,
    maxFileBytes: nat,
    maxTotalBytes: nat)
  {
    predicate Valid() {
      0.0 <= maxAge && 0 < maxFileBytes
    }
  }

  /** A cap would still be exceeded if only `rest` were left of the queue of `s0`. */
  ghost predicate OverCaps(limits: Limits, s0: Snapshot, rest: seq<Cursor>, lost: set<Path>) {
    || Size(s0.disk, rest, lost) > limits.maxTotalBytes
    || (limits.maxEvents > 0
        && Remaining(s0.pending, Count(s0.disk, s0.queue, lost), Count(s0.disk, rest, lost)) > limits.maxEvents)
  }

  /** `q` is the longest suffix of `kept` that the caps allow: with one more segment a cap is exceeded. */
  ghost predicate LongestFit(limits: Limits, s0: Snapshot, kept: seq<Cursor>, q: seq<Cursor>, lost: set<Path>) {
    exists k: nat :: k <= |kept| && q == kept[k..] && (k > 0 ==> OverCaps(limits, s0, kept[k - 1..], lost))
  }

  ghost predicate WithinCaps(limits: Limits, s: Snapshot, lost: set<Path>) {
    s.queue == []
    || (Size(s.disk, s.queue, lost) <= limits.maxTotalBytes && (limits.maxEvents > 0 ==> s.pending <= limits.maxEvents))
  }

  /** What `_prune` does: first the files that are too old, then the front until the caps hold. */
  ghost predicate PrunedBy(limits: Limits, s0: Snapshot, s: Snapshot, now: real, io: Faults) {
    && Pruned(s0, s, io)
    && LongestFit(limits, s0, AgeKept(s0.disk, s0.queue, now - limits.maxAge, io.lost), s.queue, io.lost)
    && WithinCaps(limits, s, io.lost)
  }

  /** Retention has no reason to drop anything if `bytes` more bytes and `events` more events come in at `now`. */
  ghost predicate Roomy(limits: Limits, s: Snapshot, now: real, bytes: nat, events: nat) {
    && (forall i :: 0 <= i < |s.queue| ==> Fresh(s.disk, s.queue[i], now - limits.maxAge, {}))
    && Size(s.disk, FullQueue(s.disk, s.queue), {}) + bytes <= limits.maxTotalBytes
    && (limits.maxEvents > 0 ==> s.pending + events <= limits.maxEvents)
  }

  /** The active file overshoots the rotation limit by less than `slack`. */
  ghost predicate ActiveBelow(limits: Limits, slack: nat, d: Disk) {
    Bytes(ActiveLines(d)) < limits.maxFileBytes + slack
  }

  /** A file other than the active one is never written again. */
  ghost predicate SegmentsKept(d0: Disk, d: Disk) {
    forall p :: p in d && p in d0 && p != Active ==> d[p] == d0[p]
  }

  /** Nothing lies in the directory but the queued files and the active file. */
  ghost predicate Tidy(d: Disk, q: seq<Cursor>) {
    if q == [] then d.Keys <= {Active} else Tidy(d - {q[0].path}, q[1..])
  }

  lemma {:induction false} TidyIff(d: Disk, q: seq<Cursor>)
    ensures Tidy(d, q) <==> d.Keys <= Paths(q) + {Active}
  {
    if q == [] {
      assert Paths(q) == {};
    } else {
      var rest := q[1..];
      TidyIff(d - {q[0].path}, rest);
      assert Paths(q) == Paths(rest) + {q[0].path} by {
        forall i | 0 <= i < |q| ensures q[i].path in Paths(rest) + {q[0].path} {
          if i > 0 {
            assert rest[i - 1] == q[i];
          }
        }
        forall i | 0 <= i < |rest| ensures rest[i].path in Paths(q) {
          assert q[i + 1] == rest[i];
        }
      }
    }
  }

  /** The arguments of `__init__`. */
  datatype Settings = Settings(maxEvents: int, maxAgeDays: real, maxFileBytes: int, maxTotalBytes: int)

  /** The limits that `__init__` makes of them. */
  function MakeLimits(s: Settings): (limits: Limits)
    ensures limits.Valid()
    ensures limits.maxFileBytes <= limits.maxTotalBytes
  {
    var file := if s.maxFileBytes < 1024 then 1024 else s.maxFileBytes;
    Limits(if s.maxEvents < 0 then 0 else s.maxEvents,
           (if s.maxAgeDays < 1.0 then 1.0 else s.maxAgeDays) * 86400.0,
           file,
           if s.maxTotalBytes < file then file else s.maxTotalBytes)
  }

  /** What the configuration promises after retention at `now`: no file but the active one is older than `maxAgeDays`
      days, at least one, and unless everything went, the files hold no more than they may. */
  ghost predicate AsConfigured(st: Settings, s: Snapshot, now: real, lost: set<Path>) {
    && (forall i :: 0 <= i < |s.queue| && s.queue[i].path != Active ==>
      && s.queue[i].path in s.disk && s.queue[i].path !in lost
      && now - s.disk[s.queue[i].path].mtime <= 24.0 * 60.0 * 60.0 * if st.maxAgeDays > 1.0 then st.maxAgeDays else 1.0)
    && (s.queue != [] ==>
      && (Size(s.disk, s.queue, lost) <= st.maxTotalBytes || Size(s.disk, s.queue, lost) <= st.maxFileBytes
          || Size(s.disk, s.queue, lost) <= 1024)
      && (st.maxEvents > 0 ==> s.pending <= st.maxEvents))
  }

  /** The files that are left are young enough. */
  ghost predicate Young(limits: Limits, s: Snapshot, now: real, lost: set<Path>) {
    forall i :: 0 <= i < |s.queue| && s.queue[i].path != Active ==>
      && s.queue[i].path in s.disk && s.queue[i].path !in lost
      && now - limits.maxAge <= s.disk[s.queue[i].path].mtime
  }

  lemma Configured(st: Settings, s: Snapshot, now: real, lost: set<Path>)
    requires Young(MakeLimits(st), s, now, lost) && WithinCaps(MakeLimits(st), s, lost)
    ensures AsConfigured(st, s, now, lost)
  {
  }

  // ---- `_prune` ----

  lemma PrunedYoung(limits: Limits, s0: Snapshot, s: Snapshot, now: real, io: Faults)
    requires WellFormed(s0.disk, s0.queue) && PrunedBy(limits, s0, s, now, io)
    ensures Young(limits, s, now, io.lost)
  {
    forall i | 0 <= i < |s.queue| && s.queue[i].path != Active
      ensures s.queue[i].path in s.disk && s.queue[i].path !in io.lost
      ensures now - limits.maxAge <= s.disk[s.queue[i].path].mtime
    {
      FitMember(limits, s0, AgeKept(s0.disk, s0.queue, now - limits.maxAge, io.lost), s.queue, io.lost, i);
      StillYoung(limits, s0, s, now, io, i);
    }
  }

  lemma StillYoung(limits: Limits, s0: Snapshot, s: Snapshot, now: real, io: Faults, i: nat)
    requires WellFormed(s0.disk, s0.queue) && Pruned(s0, s, io) && i < |s.queue| && s.queue[i].path != Active
    requires s.queue[i] in AgeKept(s0.disk, s0.queue, now - limits.maxAge, io.lost)
    ensures s.queue[i].path in s.disk && s.queue[i].path !in io.lost
    ensures now - limits.maxAge <= s.disk[s.queue[i].path].mtime
  {
    FileKept(s0, s, io, i);
    KeptMember(s0.disk, s0.queue, now - limits.maxAge, io.lost, s.queue[i]);
  }

  lemma FileKept(s0: Snapshot, s: Snapshot, io: Faults, i: nat)
    requires WellFormed(s0.disk, s0.queue) && Pruned(s0, s, io) && i < |s.queue|
    ensures s.queue[i].path in s.disk && s.queue[i].path in s0.disk
    ensures s.disk[s.queue[i].path] == s0.disk[s.queue[i].path]
  {
    PrunedWellFormed(s0, s, io);
  }

  lemma FitMember(limits: Limits, s0: Snapshot, kept: seq<Cursor>, q: seq<Cursor>, lost: set<Path>, i: nat)
    requires LongestFit(limits, s0, kept, q, lost) && i < |q|
    ensures q[i] in kept
  {
  }

  lemma {:induction false} KeptMember(disk: Disk, q: seq<Cursor>, cutoff: real, lost: set<Path>, c: Cursor)
    requires c in AgeKept(disk, q, cutoff, lost)
    ensures Fresh(disk, c, cutoff, lost)
  {
    if q != [] && c in AgeKept(disk, q[1..], cutoff, lost) {
      KeptMember(disk, q[1..], cutoff, lost, c);
    }
  }

  lemma OverCapsFrame(limits: Limits, s0: Snapshot, s1: Snapshot, k: nat, io: Faults)
    requires WellFormed(s0.disk, s0.queue) && Pruned(s0, s1, io)
    requires k <= |s1.queue| && OverCaps(limits, s1, s1.queue[k..], io.lost)
    ensures OverCaps(limits, s0, s1.queue[k..], io.lost)
  {
    var rest := s1.queue[k..];
    var n0, n1, r := Count(s0.disk, s0.queue, io.lost), Count(s0.disk, s1.queue, io.lost), Count(s0.disk, rest, io.lost);
    assert Count(s1.disk, rest, io.lost) == r && Size(s1.disk, rest, io.lost) == Size(s0.disk, rest, io.lost)
      && Count(s1.disk, s1.queue, io.lost) == n1 by {
      PrunedFrame(s0, s1, rest, io);
      PrunedFrame(s0, s1, s1.queue, io);
    }
    assert r <= n1 by {
      assert s1.queue == s1.queue[..k] + rest;
      CountConcat(s0.disk, s1.queue[..k], rest, io.lost);
    }
    assert n1 <= n0 by {
      SubqueueUnread(s0.disk, s1.queue, s0.queue, io.lost);
    }
  }

  /** The first `k` segments are gone, each because a cap was exceeded with it. */
  ghost predicate CutBack(limits: Limits, s1: Snapshot, s2: Snapshot, k: nat, io: Faults) {
    && k <= |s1.queue| && s2.queue == s1.queue[k..]
    && Pruned(s1, s2, io)
    && (k > 0 ==> OverCaps(limits, s1, s1.queue[k - 1..], io.lost))
  }

  /** The age stage followed by the cap stages. */
  lemma PruneStages(limits: Limits, s0: Snapshot, s1: Snapshot, s2: Snapshot, k: nat, now: real, io: Faults)
    requires WellFormed(s0.disk, s0.queue)
    requires Pruned(s0, s1, io) && s1.queue == AgeKept(s0.disk, s0.queue, now - limits.maxAge, io.lost)
    requires CutBack(limits, s1, s2, k, io) && WithinCaps(limits, s2, io.lost)
    ensures PrunedBy(limits, s0, s2, now, io) && WellFormed(s2.disk, s2.queue)
  {
    if k > 0 {
      OverCapsFrame(limits, s0, s1, k - 1, io);
    }
    PrunedTrans(s0, s1, s2, io);
    PrunedWellFormed(s0, s2, io);
  }

  /** Nothing is dropped when everything is fresh and no cap is exceeded. */
  lemma NothingToDrop(limits: Limits, s: Snapshot, now: real, s': Snapshot, io: Faults)
    requires io.lost == {} && PrunedBy(limits, s, s', now, io)
    requires forall i :: 0 <= i < |s.queue| ==> Fresh(s.disk, s.queue[i], now - limits.maxAge, {})
    requires Size(s.disk, s.queue, {}) <= limits.maxTotalBytes
    requires limits.maxEvents > 0 ==> s.pending <= limits.maxEvents
    ensures s'.queue == s.queue
  {
    var kept := AgeKept(s.disk, s.queue, now - limits.maxAge, {});
    assert kept == s.queue by {
      AgeKeptFresh(s.disk, s.queue, now - limits.maxAge, {});
    }
    FitsWhole(limits, s, kept, s'.queue);
  }

  lemma FitsWhole(limits: Limits, s: Snapshot, kept: seq<Cursor>, q: seq<Cursor>)
    requires kept == s.queue && LongestFit(limits, s, kept, q, {})
    requires Size(s.disk, s.queue, {}) <= limits.maxTotalBytes
    requires limits.maxEvents > 0 ==> s.pending <= limits.maxEvents
    ensures q == s.queue
  {
    var k: nat :| k <= |s.queue| && q == s.queue[k..] && (k > 0 ==> OverCaps(limits, s, s.queue[k - 1..], {}));
    if k > 0 {
      RestWithinCaps(limits, s, k - 1);
    }
  }

  /** What is within the caps as a whole is within them in part. */
  lemma RestWithinCaps(limits: Limits, s: Snapshot, k: nat)
    requires k <= |s.queue|
    requires Size(s.disk, s.queue, {}) <= limits.maxTotalBytes
    requires limits.maxEvents > 0 ==> s.pending <= limits.maxEvents
    ensures !OverCaps(limits, s, s.queue[k..], {})
  {
    var q := s.queue;
    assert q == q[..k] + q[k..];
    SizeConcat(s.disk, q[..k], q[k..], {});
    CountConcat(s.disk, q[..k], q[k..], {});
  }

  lemma PrunedTidy(s0: Snapshot, s: Snapshot, io: Faults)
    requires io.stuck == {} && Pruned(s0, s, io) && Tidy(s0.disk, s0.queue)
    ensures Tidy(s.disk, s.queue)
  {
    TidyIff(s0.disk, s0.queue);
    TidyIff(s.disk, s.queue);
  }

  // ---- A dropped active file that cannot be removed ----

  /** Retention will drop the active file and not be able to remove it: even alone it exceeds a cap. */
  ghost predicate Revives(limits: Limits, s: Snapshot, io: Faults) {
    && Queued(s.queue, Active) && Active in io.stuck
    && OverCaps(limits, s, [s.queue[|s.queue| - 1]], io.lost)
  }

  /** That is exactly when the active file is left behind, and then nothing else is queued. */
  lemma RevivedIff(limits: Limits, s0: Snapshot, s: Snapshot, now: real, io: Faults)
    requires WellFormed(s0.disk, s0.queue) && PrunedBy(limits, s0, s, now, io)
    ensures Revived(s0.queue, s) <==> Revives(limits, s0, io)
    ensures Revived(s0.queue, s) ==> s.queue == []
  {
    if Queued(s0.queue, Active) {
      var front, last := s0.queue[..|s0.queue| - 1], s0.queue[|s0.queue| - 1];
      assert s0.queue == front + [last] && last.path == Active;
      if Queued(s.queue, Active) {
        StaysWithinCaps(limits, s0, s, last, io);
      } else {
        DroppedLast(limits, s0, s, front, last, now, io);
        PrunedOrphanStuck(s0, s, io);
      }
    }
  }

  lemma PrunedOrphanStuck(s0: Snapshot, s: Snapshot, io: Faults)
    requires WellFormed(s0.disk, s0.queue) && Pruned(s0, s, io) && Queued(s0.queue, Active) && !Queued(s.queue, Active)
    ensures Active in s.disk <==> Active in io.stuck
  {
    assert Active in Paths(s0.queue) && Active !in Paths(s.queue);
  }

  /** The cap stages drop the last segment only if a cap is exceeded with it alone. */
  lemma DroppedLast(limits: Limits, s0: Snapshot, s: Snapshot, front: seq<Cursor>, last: Cursor, now: real, io: Faults)
    requires PrunedBy(limits, s0, s, now, io) && s0.queue == front + [last] && last.path == Active
    requires !Queued(s.queue, Active)
    ensures s.queue == [] && OverCaps(limits, s0, [last], io.lost)
  {
    var cutoff := now - limits.maxAge;
    var older := AgeKept(s0.disk, front, cutoff, io.lost);
    assert AgeKept(s0.disk, s0.queue, cutoff, io.lost) == older + [last] by {
      AgeKeptConcat(s0.disk, front, [last], cutoff, io.lost);
      assert [last][1..] == [];
    }
    FitDropsLast(limits, s0, older, last, s.queue, io.lost);
  }

  lemma FitDropsLast(limits: Limits, s0: Snapshot, older: seq<Cursor>, last: Cursor, q: seq<Cursor>, lost: set<Path>)
    requires LongestFit(limits, s0, older + [last], q, lost) && last.path == Active && !Queued(q, Active)
    ensures q == [] && OverCaps(limits, s0, [last], lost)
  {
    var kept := older + [last];
    var k: nat :| k <= |kept| && q == kept[k..] && (k > 0 ==> OverCaps(limits, s0, kept[k - 1..], lost));
    SuffixHasLast(older, last, k);
    assert k == |kept| && kept[k - 1..] == [last];
  }

  lemma SuffixHasLast(older: seq<Cursor>, last: Cursor, k: nat)
    requires k <= |older + [last]|
    ensures k < |older + [last]| ==> Queued((older + [last])[k..], last.path)
  {
    var q := (older + [last])[k..];
    assert q != [] ==> q[|q| - 1] == last;
  }

  /** If it stays, it does not exceed a cap alone. */
  lemma StaysWithinCaps(limits: Limits, s0: Snapshot, s: Snapshot, last: Cursor, io: Faults)
    requires WellFormed(s0.disk, s0.queue) && Pruned(s0, s, io) && WithinCaps(limits, s, io.lost)
    requires s0.queue != [] && last == s0.queue[|s0.queue| - 1] && last.path == Active && Queued(s.queue, Active)
    ensures !OverCaps(limits, s0, [last], io.lost)
  {
    PrunedWellFormed(s0, s, io);
    var rest := s.queue[..|s.queue| - 1];
    assert s.queue == rest + [last] by {
      LastKept(s0.disk, s.queue, s0.queue, last);
    }
    PrunedFrame(s0, s, s.queue, io);
    SizeConcat(s0.disk, rest, [last], io.lost);
    CountConcat(s0.disk, rest, [last], io.lost);
  }

  lemma LastKept(d: Disk, a: seq<Cursor>, q: seq<Cursor>, last: Cursor)
    requires WellFormed(d, q) && WellFormed(d, a) && IsSubseq(a, q)
    requires q != [] && last == q[|q| - 1] && last.path == Active && Queued(a, Active)
    ensures a != [] && a[|a| - 1] == last
  {
    SubqueueWellFormed(d, a, q);
    assert a[|a| - 1] in q;
  }

  // ---- `put` ----

  /** The events and the lines that an append adds to what is owed. */
  function AppendedEvents(d: Disk, ev: Event, io: Faults): seq<Event> {
    if (io.append.Complete? || io.append.Unsynced?) && !TornActive(d) then [ev] else []
  }

  function AppendedLines(d: Disk, ev: Event, io: Faults): nat {
    if LineLeft(ev, io.append).Some? && !TornActive(d) then 1 else 0
  }

  function DiskAfterAppend(d: Disk, ev: Event, now: real, io: Faults): Disk {
    var left := LineLeft(ev, io.append);
    if left.Some? then AppendedDisk(d, left.value, now) else d
  }

  /** The buffer after `_append_line` and the count that follows it. */
  function AfterAppend(s: Snapshot, ev: Event, now: real, io: Faults): Snapshot {
    Snapshot(DiskAfterAppend(s.disk, ev, now, io), if io.append.Complete? then AppendedQueue(s.queue) else s.queue,
             s.pending + 1, s.dropped)
  }

  ghost predicate Appended(s0: Snapshot, s1: Snapshot, ev: Event, now: real, io: Faults) {
    s1 == AfterAppend(s0, ev, now, io)
  }

  /** The active file is full, and can be moved out of the way. */
  predicate Rotates(limits: Limits, s: Snapshot, io: Faults) {
    Active in s.disk && Active !in io.lost && limits.maxFileBytes <= Bytes(s.disk[Active].lines) && !io.rename
  }

  ghost predicate RotatedTo(limits: Limits, s1: Snapshot, s2: Snapshot, target: Option<Path>, io: Faults) {
    && s2.pending == s1.pending && s2.dropped == s1.dropped
    && (target.Some? <==> Rotates(limits, s1, io))
    && (target == None ==> s2 == s1)
    && (target.Some? ==>
        && target.value !in s1.disk && target.value.Rotated?
        && s2.disk == Moved(s1.disk, target.value) && s2.queue == Renamed(s1.queue, target.value))
  }

  /** What a rotation strands: an active file that is not queued is moved out of sight. */
  ghost function Stranded(limits: Limits, s: Snapshot, io: Faults): seq<Event> {
    if Rotates(limits, s, io) then Events(Orphan(s.disk, s.queue)) else []
  }

  lemma AppendPhase(s0: Snapshot, s1: Snapshot, ev: Event, now: real, io: Faults)
    requires WellFormed(s0.disk, s0.queue) && Aligned(s0.disk, s0.queue) && Appended(s0, s1, ev, now, io)
    ensures WellFormed(s1.disk, s1.queue) && Aligned(s1.disk, s1.queue)
    ensures Owed(s1.disk, s1.queue) == Owed(s0.disk, s0.queue) + AppendedEvents(s0.disk, ev, io)
    ensures OwedLines(s1.disk, s1.queue) == OwedLines(s0.disk, s0.queue) + AppendedLines(s0.disk, ev, io)
    ensures io.append.Complete? ==> Queued(s1.queue, Active) && Orphan(s1.disk, s1.queue) == []
  {
    var left := LineLeft(ev, io.append);
    if left.Some? {
      AppendedWellFormed(s0.disk, s0.queue, left.value, now);
      AppendedUnread(s0.disk, s0.queue, left.value, now);
    }
  }

  /** The active file ends in a torn line exactly after an append that was cut short, until a line is written again. */
  lemma AppendTears(s0: Snapshot, ev: Event, now: real, io: Faults)
    ensures var s1 := AfterAppend(s0, ev, now, io);
      var left := LineLeft(ev, io.append);
      TornActive(s1.disk) <==> if left.Some? then left.value.Torn? else TornActive(s0.disk)
  {
  }

  lemma RotatePhase(limits: Limits, s1: Snapshot, s2: Snapshot, target: Option<Path>, io: Faults)
    requires WellFormed(s1.disk, s1.queue) && RotatedTo(limits, s1, s2, target, io)
    ensures WellFormed(s2.disk, s2.queue)
    ensures Aligned(s1.disk, s1.queue) ==> Aligned(s2.disk, s2.queue)
    ensures IsSubseq(Owed(s2.disk, s2.queue), Owed(s1.disk, s1.queue))
    ensures |Owed(s2.disk, s2.queue)| + |Stranded(limits, s1, io)| == |Owed(s1.disk, s1.queue)|
    ensures Queued(s1.queue, Active) ==>
      Owed(s2.disk, s2.queue) == Owed(s1.disk, s1.queue)
      && OwedLines(s2.disk, s2.queue) == OwedLines(s1.disk, s1.queue)
      && Orphan(s2.disk, s2.queue) == []
    ensures OwedLines(s2.disk, s2.queue) <= OwedLines(s1.disk, s1.queue)
  {
    if target.Some? {
      RenamedWellFormed(s1.disk, s1.queue, target.value);
      RotatedOwed(s1.disk, s1.queue, target.value);
      FullUnread(s1.disk, s1.queue);
    } else {
      SubseqRefl(Owed(s1.disk, s1.queue));
    }
  }

  /** If the rotation took place, no active file is left that could be revived. */
  lemma RevivedAfterRotation(limits: Limits, s1: Snapshot, s2: Snapshot, s3: Snapshot, target: Option<Path>, now: real,
                             io: Faults)
    requires WellFormed(s1.disk, s1.queue) && RotatedTo(limits, s1, s2, target, io) && PrunedBy(limits, s2, s3, now, io)
    ensures Revived(s2.queue, s3) <==> Revived(s1.queue, s3)
    ensures Revived(s1.queue, s3) ==> s2 == s1 && s3.queue == []
    ensures Revived(s1.queue, s3) <==> Revives(limits, s1, io) && !Rotates(limits, s1, io)
  {
    if target.Some? {
      assert Active !in s2.disk;
    } else {
      RevivedIff(limits, s1, s3, now, io);
    }
  }

  /** A `put` of `ev` will drop the active file and not be able to remove it. */
  ghost predicate PutRevives(limits: Limits, s: Snapshot, ev: Event, now: real, io: Faults) {
    var s1 := AfterAppend(s, ev, now, io);
    Revives(limits, s1, io) && !Rotates(limits, s1, io)
  }

  /** Order: a `put` adds its event at the end and may lose events, but never reorders, repeats or invents one, unless the
      active file is revived; then that file is owed again from its first line, and nothing else. */
  lemma PutOrder(limits: Limits, s0: Snapshot, s1: Snapshot, s2: Snapshot, s3: Snapshot, target: Option<Path>,
                 ev: Event, now: real, io: Faults)
    requires WellFormed(s0.disk, s0.queue) && Aligned(s0.disk, s0.queue) && Appended(s0, s1, ev, now, io)
    requires RotatedTo(limits, s1, s2, target, io) && PrunedBy(limits, s2, s3, now, io)
    ensures PutOrdered(limits, s0, s3, ev, now, io)
  {
    AppendPhase(s0, s1, ev, now, io);
    RevivedAfterRotation(limits, s1, s2, s3, target, now, io);
    if Revived(s1.queue, s3) {
      AllDropped(s1, s3, io);
    } else {
      PutKeepsOrder(limits, s0, s1, s2, s3, target, ev, now, io);
    }
  }

  /** What is owed when the active file alone is left, and not queued. */
  lemma AllDropped(s0: Snapshot, s: Snapshot, io: Faults)
    requires WellFormed(s0.disk, s0.queue) && Pruned(s0, s, io) && Revived(s0.queue, s) && s.queue == []
    ensures Due(s) == Events(ActiveLines(s0.disk)) && s.dropped == s0.dropped + |Due(s0)|
  {
    PrunedOwed(s0, s, io);
    PrunedOrphan(s0, s, io);
    assert Events(Unread(s.disk, [])) == [] && [] + Events(ActiveLines(s0.disk)) == Events(ActiveLines(s0.disk));
  }

  lemma PutKeepsOrder(limits: Limits, s0: Snapshot, s1: Snapshot, s2: Snapshot, s3: Snapshot, target: Option<Path>,
                      ev: Event, now: real, io: Faults)
    requires WellFormed(s0.disk, s0.queue) && Aligned(s0.disk, s0.queue) && Appended(s0, s1, ev, now, io)
    requires RotatedTo(limits, s1, s2, target, io) && Pruned(s2, s3, io)
    requires !Revived(s1.queue, s3) && !Revived(s2.queue, s3)
    ensures IsSubseq(Due(s3), Due(s0) + AppendedEvents(s0.disk, ev, io))
    ensures |Due(s3)| + |Stranded(limits, s1, io)| + s3.dropped
         == |Due(s0)| + |AppendedEvents(s0.disk, ev, io)| + s0.dropped
    ensures io.append.Complete? ==> Content(s3) == Due(s3)
  {
    AppendPhase(s0, s1, ev, now, io);
    RotatePhase(limits, s1, s2, target, io);
    PrunedOwed(s2, s3, io);
    SubseqTrans(Due(s3), Due(s2), Due(s1));
    if io.append.Complete? {
      PrunedOrphan(s2, s3, io);
      NoOrphan(s3.disk, s3.queue);
    }
  }

  lemma NoOrphan(d: Disk, q: seq<Cursor>)
    ensures Orphan(d, q) == [] ==> Events(Unread(d, q)) == Owed(d, q)
  {
    FullUnread(d, q);
    assert Events([]) == [] && Events(Unread(d, q)) + [] == Events(Unread(d, q));
  }

  lemma PutPending(limits: Limits, s0: Snapshot, s1: Snapshot, s2: Snapshot, s3: Snapshot, target: Option<Path>,
                   ev: Event, now: real, io: Faults)
    requires WellFormed(s0.disk, s0.queue) && Aligned(s0.disk, s0.queue) && Appended(s0, s1, ev, now, io)
    requires RotatedTo(limits, s1, s2, target, io) && Pruned(s2, s3, io)
    requires !Revived(s2.queue, s3) && PendingCovers(s0)
    ensures PendingCovers(s3)
    ensures io == NO_FAULTS && PendingExact(s0) ==> PendingExact(s3)
  {
    CountBeforePruning(limits, s0, s1, s2, target, ev, now, io);
    PrunedPendingExact(s2, s3, io);
  }

  lemma CountBeforePruning(limits: Limits, s0: Snapshot, s1: Snapshot, s2: Snapshot, target: Option<Path>, ev: Event,
                           now: real, io: Faults)
    requires WellFormed(s0.disk, s0.queue) && Aligned(s0.disk, s0.queue) && Appended(s0, s1, ev, now, io)
    requires RotatedTo(limits, s1, s2, target, io) && PendingCovers(s0)
    ensures PendingCovers(s2) && WellFormed(s2.disk, s2.queue)
    ensures io == NO_FAULTS && PendingExact(s0) ==> PendingExact(s2)
  {
    CountAfterAppend(s0, s1, ev, now, io);
    RotatePhase(limits, s1, s2, target, io);
  }

  lemma CountAfterAppend(s0: Snapshot, s1: Snapshot, ev: Event, now: real, io: Faults)
    requires WellFormed(s0.disk, s0.queue) && Aligned(s0.disk, s0.queue) && Appended(s0, s1, ev, now, io)
    requires PendingCovers(s0)
    ensures PendingCovers(s1) && WellFormed(s1.disk, s1.queue)
    ensures io == NO_FAULTS && PendingExact(s0) ==> PendingExact(s1) && Queued(s1.queue, Active)
  {
    AppendPhase(s0, s1, ev, now, io);
    if TornActive(s0.disk) {
      TornIsBroken(s0.disk, s0.queue);
    }
  }

  /** Retention of a buffer whose count is right. */
  lemma PrunedPendingExact(s0: Snapshot, s: Snapshot, io: Faults)
    requires WellFormed(s0.disk, s0.queue) && Pruned(s0, s, io) && !Revived(s0.queue, s) && PendingCovers(s0)
    ensures PendingCovers(s)
    ensures io.lost == {} && PendingExact(s0) ==> PendingExact(s)
  {
    PrunedPending(s0, s, io);
    EventsAtMostNonBlank(Unread(s.disk, FullQueue(s.disk, s.queue)));
  }

  /** A failed append left something in an active file that is not queued. */
  ghost predicate Unlisted(q: seq<Cursor>, ev: Event, io: Faults) {
    !io.append.Complete? && LineLeft(ev, io.append).Some? && !Queued(q, Active)
  }

  /** No active file with lines is left out of the queue, unless a failed append left it so. */
  lemma PutClean(limits: Limits, s0: Snapshot, s1: Snapshot, s2: Snapshot, s3: Snapshot, target: Option<Path>,
                 ev: Event, now: real, io: Faults)
    requires WellFormed(s0.disk, s0.queue) && Aligned(s0.disk, s0.queue) && Appended(s0, s1, ev, now, io)
    requires RotatedTo(limits, s1, s2, target, io) && Pruned(s2, s3, io)
    requires !Revived(s2.queue, s3) && Clean(s0) && !Unlisted(s0.queue, ev, io)
    ensures Clean(s3)
  {
    CleanBeforePruning(limits, s0, s1, s2, target, ev, now, io);
    PrunedOrphan(s2, s3, io);
  }

  lemma CleanBeforePruning(limits: Limits, s0: Snapshot, s1: Snapshot, s2: Snapshot, target: Option<Path>, ev: Event,
                           now: real, io: Faults)
    requires WellFormed(s0.disk, s0.queue) && Aligned(s0.disk, s0.queue) && Appended(s0, s1, ev, now, io)
    requires RotatedTo(limits, s1, s2, target, io) && Clean(s0) && !Unlisted(s0.queue, ev, io)
    ensures Clean(s2) && WellFormed(s2.disk, s2.queue)
  {
    AppendPhase(s0, s1, ev, now, io);
    assert NonBlank([]) == 0;
    if target.Some? {
      RenamedWellFormed(s1.disk, s1.queue, target.value);
      RotatedOwed(s1.disk, s1.queue, target.value);
    }
  }

  lemma AppendedSize(d: Disk, q: seq<Cursor>, line: Line, now: real)
    requires WellFormed(d, q) && !line.Blank?
    ensures Size(AppendedDisk(d, line, now), AppendedQueue(q), {}) == Size(d, FullQueue(d, q), {}) + LineBytes(line)
  {
    var d' := AppendedDisk(d, line, now);
    var front, c := q, Cursor(Active, 0);
    if Queued(q, Active) {
      front, c := q[..|q| - 1], q[|q| - 1];
      assert q == front + [c];
    }
    assert AppendedQueue(q) == front + [c];
    SizeConcat(d', front, [c], {});
    SizeConcat(d, front, [c], {});
    SizeFrame(d, d', front, {});
    assert [c][1..] == [];
    ExtendedCounts(ActiveLines(d), line);
    if Active in d {
      assert FullQueue(d, q) == front + [c];
    } else {
      assert c.path == Active && front == q && Bytes([]) == 0;
      assert Size(d, [c], {}) == 0;
    }
  }

  /** With room for one more line, `put` drops nothing. */
  lemma PutRoom(limits: Limits, s0: Snapshot, s1: Snapshot, s2: Snapshot, s3: Snapshot, target: Option<Path>,
                ev: Event, now: real, io: Faults)
    requires limits.Valid() && io == NO_FAULTS
    requires WellFormed(s0.disk, s0.queue) && Aligned(s0.disk, s0.queue) && Appended(s0, s1, ev, now, io)
    requires RotatedTo(limits, s1, s2, target, io) && PrunedBy(limits, s2, s3, now, io)
    requires Roomy(limits, s0, now, |ev| + 1, 1)
    ensures s3.queue == s2.queue && s3.dropped == s2.dropped
    ensures Owed(s3.disk, s3.queue) == Owed(s0.disk, s0.queue) + AppendedEvents(s0.disk, ev, io)
  {
    assert s3.queue == s2.queue by {
      PutFits(limits, s0, s1, s2, target, ev, now, io);
      PutFresh(limits, s0, s1, s2, target, ev, now, io);
      NothingToDrop(limits, s2, now, s3, io);
    }
    AppendPhase(s0, s1, ev, now, io);
    RotatePhase(limits, s1, s2, target, io);
    NothingDropped(s2, s3, io);
  }

  lemma PutFits(limits: Limits, s0: Snapshot, s1: Snapshot, s2: Snapshot, target: Option<Path>, ev: Event, now: real,
                io: Faults)
    requires io == NO_FAULTS && Roomy(limits, s0, now, |ev| + 1, 1)
    requires WellFormed(s0.disk, s0.queue) && Aligned(s0.disk, s0.queue)
    requires Appended(s0, s1, ev, now, io) && RotatedTo(limits, s1, s2, target, io)
    ensures Size(s2.disk, s2.queue, {}) <= limits.maxTotalBytes
  {
    AppendedSize(s0.disk, s0.queue, Record(ev), now);
    AppendedWellFormed(s0.disk, s0.queue, Record(ev), now);
    if target.Some? {
      RenamedUnread(s1.disk, s1.queue, target.value);
    }
  }

  lemma PutFresh(limits: Limits, s0: Snapshot, s1: Snapshot, s2: Snapshot, target: Option<Path>, ev: Event, now: real,
                 io: Faults)
    requires limits.Valid() && io == NO_FAULTS
    requires WellFormed(s0.disk, s0.queue) && Appended(s0, s1, ev, now, io) && RotatedTo(limits, s1, s2, target, io)
    requires forall i :: 0 <= i < |s0.queue| ==> Fresh(s0.disk, s0.queue[i], now - limits.maxAge, {})
    ensures forall i :: 0 <= i < |s2.queue| ==> Fresh(s2.disk, s2.queue[i], now - limits.maxAge, {})
  {
    forall i | 0 <= i < |s2.queue| ensures Fresh(s2.disk, s2.queue[i], now - limits.maxAge, {}) {
      if i < |s0.queue| {
        assert s1.queue[i] == s0.queue[i];
      }
    }
  }

  /** The append makes the active file longer by no more than the line. */
  lemma AppendedBytes(s0: Snapshot, s1: Snapshot, ev: Event, now: real, io: Faults)
    requires Appended(s0, s1, ev, now, io)
    ensures Bytes(ActiveLines(s1.disk)) <= Bytes(ActiveLines(s0.disk)) + |ev| + 1
    ensures SegmentsKept(s0.disk, s1.disk) && s1.disk.Keys <= s0.disk.Keys + {Active}
  {
    var left := LineLeft(ev, io.append);
    if left.Some? {
      ExtendedCounts(ActiveLines(s0.disk), left.value);
    }
  }

  /** Rotation keeps the active file below the limit, unless it fails; a rotated file overshoots by less than one line more
      than the active file did. */
  lemma PutSizes(limits: Limits, s0: Snapshot, s1: Snapshot, s2: Snapshot, s3: Snapshot, target: Option<Path>,
                 ev: Event, now: real, io: Faults, slack: nat)
    requires limits.Valid() && ActiveBelow(limits, slack, s0.disk)
    requires Appended(s0, s1, ev, now, io) && RotatedTo(limits, s1, s2, target, io) && Pruned(s2, s3, io)
    ensures ActiveBelow(limits, SlackAfter(slack, ev, io), s3.disk)
    ensures forall p :: p in s3.disk && p !in s0.disk && p != Active ==>
      p.Rotated? && limits.maxFileBytes <= Bytes(s3.disk[p].lines) < limits.maxFileBytes + slack + |ev| + 1
  {
    AppendedBytes(s0, s1, ev, now, io);
    assert Bytes([]) == 0;
  }

  lemma PutSegments(limits: Limits, s0: Snapshot, s1: Snapshot, s2: Snapshot, s3: Snapshot, target: Option<Path>,
                    ev: Event, now: real, io: Faults)
    requires Appended(s0, s1, ev, now, io) && RotatedTo(limits, s1, s2, target, io) && Pruned(s2, s3, io)
    ensures SegmentsKept(s0.disk, s3.disk)
  {
    AppendedBytes(s0, s1, ev, now, io);
  }

  lemma AppendTidy(s0: Snapshot, s1: Snapshot, ev: Event, now: real)
    requires Tidy(s0.disk, s0.queue) && Appended(s0, s1, ev, now, NO_FAULTS)
    ensures Tidy(s1.disk, s1.queue) && Queued(s1.queue, Active)
  {
    TidyIff(s0.disk, s0.queue);
    TidyIff(s1.disk, s1.queue);
    forall i | 0 <= i < |s0.queue| ensures s0.queue[i].path in Paths(s1.queue) {
      assert s1.queue[i] == s0.queue[i];
    }
    assert Queued(s1.queue, Active) by {
      if !Queued(s0.queue, Active) {
        assert s1.queue[|s0.queue|].path == Active;
      }
    }
  }

  lemma RotateTidy(limits: Limits, s1: Snapshot, s2: Snapshot, target: Option<Path>)
    requires Tidy(s1.disk, s1.queue) && Queued(s1.queue, Active) && RotatedTo(limits, s1, s2, target, NO_FAULTS)
    ensures Tidy(s2.disk, s2.queue)
  {
    TidyIff(s1.disk, s1.queue);
    TidyIff(s2.disk, s2.queue);
    if target.Some? {
      forall p | p in s2.disk ensures p in Paths(s2.queue) + {Active} {
        if p == target.value {
          var i :| 0 <= i < |s1.queue| && s1.queue[i].path == Active;
          assert s2.queue[i].path == p;
        } else if p != Active {
          var i :| 0 <= i < |s1.queue| && s1.queue[i].path == p;
          assert s2.queue[i].path == p;
        }
      }
    }
  }

  /** A line that is written whole leaves no torn one. */
  lemma PutUntorn(limits: Limits, s0: Snapshot, s1: Snapshot, s2: Snapshot, s3: Snapshot, target: Option<Path>,
                  ev: Event, now: real, io: Faults)
    requires io == NO_FAULTS
    requires Appended(s0, s1, ev, now, io) && RotatedTo(limits, s1, s2, target, io) && Pruned(s2, s3, io)
    ensures !TornActive(s3.disk)
  {
    assert !TornActive(s1.disk);
  }

  lemma PutTidy(limits: Limits, s0: Snapshot, s1: Snapshot, s2: Snapshot, s3: Snapshot, target: Option<Path>,
                ev: Event, now: real, io: Faults)
    requires Tidy(s0.disk, s0.queue) && io == NO_FAULTS
    requires Appended(s0, s1, ev, now, io) && RotatedTo(limits, s1, s2, target, io) && Pruned(s2, s3, io)
    ensures Tidy(s3.disk, s3.queue)
  {
    AppendTidy(s0, s1, ev, now);
    RotateTidy(limits, s1, s2, target);
    PrunedTidy(s2, s3, io);
  }

  // ---- `restore` ----

  ghost predicate PutBack(s0: Snapshot, s1: Snapshot, path: Path, events: seq<Event>, now: real) {
    path != Active && path !in s0.disk && s1 == AfterPutBack(s0, path, events, now)
  }

  lemma PutBackPhase(s0: Snapshot, s1: Snapshot, path: Path, events: seq<Event>, now: real)
    requires WellFormed(s0.disk, s0.queue) && PutBack(s0, s1, path, events, now)
    ensures WellFormed(s1.disk, s1.queue)
    ensures Events(Unread(s1.disk, s1.queue)) == events + Events(Unread(s0.disk, s0.queue))
    ensures Owed(s1.disk, s1.queue) == events + Owed(s0.disk, s0.queue)
    ensures OwedLines(s1.disk, s1.queue) == |events| + OwedLines(s0.disk, s0.queue)
    ensures Orphan(s1.disk, s1.queue) == Orphan(s0.disk, s0.queue)
  {
    PutBackUnread(s0, s1, path, events, now);
    PutBackOwed(s0.disk, s0.queue, s1.disk, s1.queue, events);
  }

  lemma PutBackOwed(d0: Disk, q0: seq<Cursor>, d1: Disk, q1: seq<Cursor>, events: seq<Event>)
    requires Unread(d1, q1) == Records(events) + Unread(d0, q0)
    requires Orphan(d1, q1) == Orphan(d0, q0)
    ensures Events(Unread(d1, q1)) == events + Events(Unread(d0, q0))
    ensures Owed(d1, q1) == events + Owed(d0, q0)
    ensures OwedLines(d1, q1) == |events| + OwedLines(d0, q0)
  {
    var before, after := Events(Unread(d0, q0)), Events(Orphan(d0, q0));
    PutBackEvents(events, Unread(d0, q0));
    calc {
      Owed(d1, q1);
      { FullUnread(d1, q1); }
      (events + before) + after;
      { ConcatAssoc(events, before, after); }
      events + (before + after);
      { FullUnread(d0, q0); }
      events + Owed(d0, q0);
    }
    calc {
      OwedLines(d1, q1);
      { FullUnread(d1, q1); }
      |events| + NonBlank(Unread(d0, q0)) + NonBlank(Orphan(d0, q0));
      { FullUnread(d0, q0); }
      |events| + OwedLines(d0, q0);
    }
  }

  lemma PutBackUnread(s0: Snapshot, s1: Snapshot, path: Path, events: seq<Event>, now: real)
    requires WellFormed(s0.disk, s0.queue) && PutBack(s0, s1, path, events, now)
    ensures WellFormed(s1.disk, s1.queue)
    ensures Unread(s1.disk, s1.queue) == Records(events) + Unread(s0.disk, s0.queue)
    ensures Orphan(s1.disk, s1.queue) == Orphan(s0.disk, s0.queue)
  {
    var q0, q1, c := s0.queue, s1.queue, Cursor(path, 0);
    assert forall i :: 0 < i < |q1| ==> q1[i] == q0[i - 1];
    assert Unread(s1.disk, q1) == Records(events) + Unread(s0.disk, q0) by {
      UnreadFrame(s0.disk, s1.disk, q0);
      UnreadCons(s1.disk, c, q0);
      assert Rest(s1.disk, c) == Records(events);
    }
    QueuedCons(c, q0);
  }

  lemma PutBackEvents(events: seq<Event>, rest: seq<Line>)
    ensures Events(Records(events) + rest) == events + Events(rest)
    ensures NonBlank(Records(events) + rest) == |events| + NonBlank(rest)
  {
    EventsOfRecords(events);
    EventsConcat(Records(events), rest);
    NonBlankConcat(Records(events), rest);
  }

  lemma QueuedCons(c: Cursor, q: seq<Cursor>)
    requires c.path != Active
    ensures Queued([c] + q, Active) <==> Queued(q, Active)
  {
    if Queued(q, Active) {
      var i :| 0 <= i < |q| && q[i].path == Active;
      assert ([c] + q)[i + 1].path == Active;
    }
  }

  lemma RevivedAfterPutBack(s0: Snapshot, s1: Snapshot, s2: Snapshot, path: Path, events: seq<Event>, now: real)
    requires PutBack(s0, s1, path, events, now)
    ensures Revived(s1.queue, s2) <==> Revived(s0.queue, s2)
    ensures Active in s1.disk <==> Active in s0.disk
    ensures Active in s0.disk ==> s1.disk[Active] == s0.disk[Active]
  {
    QueuedCons(Cursor(path, 0), s0.queue);
  }

  /** The buffer after `restore` has written and queued its file. */
  function AfterPutBack(s: Snapshot, path: Path, events: seq<Event>, now: real): Snapshot {
    Snapshot(s.disk[path := File(Records(events), now)], [Cursor(path, 0)] + s.queue, s.pending + |events|, s.dropped)
  }

  /** Order: the events put back come before everything else that is owed. */
  lemma RestoreOrder(limits: Limits, s0: Snapshot, s1: Snapshot, s2: Snapshot, path: Path, events: seq<Event>, now: real,
                     io: Faults)
    requires WellFormed(s0.disk, s0.queue) && PutBack(s0, s1, path, events, now) && PrunedBy(limits, s1, s2, now, io)
    requires io.write.Whole?
    ensures RestoreOrdered(limits, s0, s2, path, events, now, io)
    ensures !Revives(limits, s1, io) && Clean(s0) ==> Clean(s2)
  {
    PutBackPhase(s0, s1, path, events, now);
    RevivedAfterPutBack(s0, s1, s2, path, events, now);
    RevivedIff(limits, s1, s2, now, io);
    PrunedOwed(s1, s2, io);
    PrunedOrphan(s1, s2, io);
    if Revives(limits, s1, io) {
      AllDropped(s1, s2, io);
    }
  }

  lemma RestorePending(s0: Snapshot, s1: Snapshot, s2: Snapshot, path: Path, events: seq<Event>, now: real, io: Faults)
    requires WellFormed(s0.disk, s0.queue) && PutBack(s0, s1, path, events, now) && Pruned(s1, s2, io)
    requires !Revived(s1.queue, s2) && PendingCovers(s0)
    ensures PendingCovers(s2)
    ensures io == NO_FAULTS && PendingExact(s0) ==> PendingExact(s2)
  {
    PutBackPhase(s0, s1, path, events, now);
    PrunedPendingExact(s1, s2, io);
  }

  lemma RestoreRoom(limits: Limits, s0: Snapshot, s1: Snapshot, s2: Snapshot, path: Path, events: seq<Event>, now: real,
                    io: Faults)
    requires limits.Valid() && io == NO_FAULTS
    requires WellFormed(s0.disk, s0.queue) && PutBack(s0, s1, path, events, now) && PrunedBy(limits, s1, s2, now, io)
    requires Roomy(limits, s0, now, Bytes(Records(events)), |events|)
    ensures s2.queue == s1.queue && s2.dropped == s0.dropped
    ensures Events(Unread(s2.disk, s2.queue)) == events + Events(Unread(s0.disk, s0.queue))
    ensures Owed(s2.disk, s2.queue) == events + Owed(s0.disk, s0.queue)
  {
    var c := Cursor(path, 0);
    PutBackPhase(s0, s1, path, events, now);
    assert s1.queue[1..] == s0.queue;
    SizeFrame(s0.disk, s1.disk, s0.queue, {});
    SizeConcat(s0.disk, s0.queue, [Cursor(Active, 0)], {});
    forall i | 0 <= i < |s1.queue| ensures Fresh(s1.disk, s1.queue[i], now - limits.maxAge, {}) {
      if i > 0 {
        assert s1.queue[i] == s0.queue[i - 1];
      }
    }
    NothingToDrop(limits, s1, now, s2, io);
    NothingDropped(s1, s2, io);
  }

  /** Retention that leaves the whole queue leaves everything. */
  lemma NothingDropped(s0: Snapshot, s: Snapshot, io: Faults)
    requires WellFormed(s0.disk, s0.queue) && Pruned(s0, s, io) && s.queue == s0.queue
    ensures Owed(s.disk, s.queue) == Owed(s0.disk, s0.queue) && s.dropped == s0.dropped
    ensures Unread(s.disk, s.queue) == Unread(s0.disk, s0.queue)
  {
    PrunedOrphan(s0, s, io);
    PrunedOwed(s0, s, io);
    SubseqLength(Owed(s.disk, s.queue), Owed(s0.disk, s0.queue));
  }

  lemma RestoreTidy(s0: Snapshot, s1: Snapshot, s2: Snapshot, path: Path, events: seq<Event>, now: real, io: Faults)
    requires Tidy(s0.disk, s0.queue) && io == NO_FAULTS
    requires PutBack(s0, s1, path, events, now) && Pruned(s1, s2, io)
    ensures Tidy(s2.disk, s2.queue)
  {
    TidyIff(s0.disk, s0.queue);
    TidyIff(s1.disk, s1.queue);
    assert s1.queue[0].path == path;
    forall i | 0 <= i < |s0.queue| ensures s0.queue[i].path in Paths(s1.queue) {
      assert s1.queue[i + 1] == s0.queue[i];
    }
    PrunedTidy(s1, s2, io);
  }

  // ---- `take` ----

  /** After `got` events were read there is still room, and for one event that was read there is room again. */
  ghost predicate KeepsRoom(limits: Limits, s0: Snapshot, s: Snapshot, got: nat) {
    forall t, bytes ::
      Roomy(limits, s0, t, bytes, 0) ==> Roomy(limits, s, t, bytes, if got <= 1 then got else 0)
  }

  /** Reading makes no cap tighter. */
  lemma ReadRoomy(limits: Limits, s0: Snapshot, s: Snapshot, j: nat, now: real, got: nat)
    requires WellFormed(s0.disk, s0.queue) && ReadTo(s0.disk, s0.queue, j, s.queue)
    requires s.disk == Finished(s0.disk, s0.queue[..j], now, NO_FAULTS) && s.pending == Less(s0.pending, got)
    ensures KeepsRoom(limits, s0, s, got)
  {
    ReadToFiles(s0.disk, s0.queue, j, s.queue, now, NO_FAULTS);
    ReadSize(s0.disk, s0.queue, j, s.queue, now);
    forall t, bytes | Roomy(limits, s0, t, bytes, 0)
      ensures Roomy(limits, s, t, bytes, if got <= 1 then got else 0)
    {
      forall i | 0 <= i < |s.queue| ensures Fresh(s.disk, s.queue[i], t - limits.maxAge, {}) {
        assert s.queue[i].path == s0.queue[j + i].path;
      }
    }
  }

  lemma ReadSize(d0: Disk, q0: seq<Cursor>, j: nat, q: seq<Cursor>, now: real)
    requires WellFormed(d0, q0) && ReadTo(d0, q0, j, q)
    ensures var d := Finished(d0, q0[..j], now, NO_FAULTS);
      Size(d, FullQueue(d, q), {}) <= Size(d0, FullQueue(d0, q0), {})
  {
    var d := Finished(d0, q0[..j], now, NO_FAULTS);
    var rest := q0[j..];
    assert Size(d, q, {}) == Size(d0, rest, {}) by {
      ReadToFiles(d0, q0, j, q, now, NO_FAULTS);
      SameSize(d, q, d0, rest);
    }
    assert Size(d0, q0, {}) >= Size(d0, rest, {}) by {
      assert q0 == q0[..j] + rest;
      SizeConcat(d0, q0[..j], rest, {});
    }
    assert Bytes(Orphan(d, q)) <= Bytes(Orphan(d0, q0)) by {
      ReadToOrphan(d0, q0, j, q, now, NO_FAULTS);
      assert Bytes([]) == 0;
    }
    FullSize(d, q);
    FullSize(d0, q0);
  }

  lemma FullSize(d: Disk, q: seq<Cursor>)
    ensures Size(d, FullQueue(d, q), {}) == Size(d, q, {}) + Bytes(Orphan(d, q))
  {
    SizeConcat(d, q, [Cursor(Active, 0)], {});
    assert [Cursor(Active, 0)][1..] == [];
  }

  lemma {:induction false} SameSize(d: Disk, q: seq<Cursor>, d': Disk, q': seq<Cursor>)
    requires |q| == |q'|
    requires forall i :: 0 <= i < |q| ==>
      q[i].path == q'[i].path && q[i].path in d && q[i].path in d' && d[q[i].path] == d'[q[i].path]
    ensures Size(d, q, {}) == Size(d', q', {})
  {
    if q != [] {
      SameSize(d, q[1..], d', q'[1..]);
    }
  }

  lemma {:induction false} FinishedSmall(limits: Limits, d0: Disk, gone: seq<Cursor>, now: real, io: Faults)
    requires limits.Valid()
    ensures forall slack: nat :: ActiveBelow(limits, slack, d0) ==> ActiveBelow(limits, slack, Finished(d0, gone, now, io))
    ensures Active in Finished(d0, gone, now, io) ==> Active in d0 || ActiveLines(Finished(d0, gone, now, io)) == []
    ensures TornActive(Finished(d0, gone, now, io)) ==> TornActive(d0)
  {
    if gone != [] {
      FinishedSmall(limits, d0, gone[..|gone| - 1], now, io);
      assert Bytes([]) == 0;
    }
  }

  lemma FinishedTidyRest(d0: Disk, q0: seq<Cursor>, j: nat, q: seq<Cursor>, now: real)
    requires WellFormed(d0, q0) && Tidy(d0, q0) && ReadTo(d0, q0, j, q)
    ensures Tidy(Finished(d0, q0[..j], now, NO_FAULTS), q)
  {
    var d := Finished(d0, q0[..j], now, NO_FAULTS);
    TidyIff(d0, q0);
    TidyIff(d, q);
    FinishedKeys(d0, q0[..j], now, NO_FAULTS);
    forall p | p in d && p != Active ensures p in Paths(q) {
      StillQueued(d0, q0, j, q, now, p);
    }
  }

  /** A file that is still there is still queued. */
  lemma StillQueued(d0: Disk, q0: seq<Cursor>, j: nat, q: seq<Cursor>, now: real, p: Path)
    requires ReadTo(d0, q0, j, q) && p in Finished(d0, q0[..j], now, NO_FAULTS) && p != Active && p in Paths(q0)
    ensures p in Paths(q)
  {
    var i :| 0 <= i < |q0| && q0[i].path == p;
    if i < j {
      FinishedAt(d0, q0[..j], now, NO_FAULTS, i);
    } else {
      assert q[i - j].path == p;
    }
  }

  lemma TakePrefix(d0: Disk, q0: seq<Cursor>, n: nat, batch: seq<Event>, j: nat, now: real, io: Faults, q: seq<Cursor>)
    requires WellFormed(d0, q0) && ReadOut(d0, q0, n, batch, j, q, io)
    requires io.lost == {}
    ensures var d := Finished(d0, q0[..j], now, io);
      var all := Events(Unread(d0, q0));
      && |batch| == (if n < |all| then n else |all|)
      && batch + Events(Unread(d, q)) == all
      && (!Lingers(q0, q, io) ==> batch + Owed(d, q) == Owed(d0, q0))
  {
    assert Readable(q0, io);
    ReadOutOwed(d0, q0, n, batch, j, q, now, io);
    if !Lingers(q0, q, io) {
      TakeOrder(d0, q0, n, batch, j, q, now, io);
    }
    if q == [] {
      assert Events(Unread(d0, q)) == [];
    }
  }

  // ---- The contracts of the operations, as relations between the state before and the state after ----

  ghost function Content(s: Snapshot): seq<Event> {
    Events(Unread(s.disk, s.queue))
  }

  ghost function Due(s: Snapshot): seq<Event> {
    Owed(s.disk, s.queue)
  }

  /** The cached count is an upper bound of the unread lines. */
  ghost predicate PendingCovers(s: Snapshot) {
    OwedLines(s.disk, s.queue) <= s.pending
  }

  /** The cached count is the number of unread events, and no unread line is broken. */
  ghost predicate PendingExact(s: Snapshot) {
    OwedLines(s.disk, s.queue) == s.pending == |Due(s)|
  }

  /** No active file with lines is left out of the queue. */
  ghost predicate Clean(s: Snapshot) {
    NonBlank(Orphan(s.disk, s.queue)) == 0
  }

  /** Both at once, so that a restart keeps it. */
  ghost predicate Counted(s: Snapshot) {
    PendingCovers(s) && Clean(s)
  }

  ghost predicate CountedExactly(s: Snapshot) {
    PendingExact(s) && Clean(s)
  }

  /** An operation that can open, remove and truncate the active file keeps what the count promised. */
  ghost predicate CountKept(s0: Snapshot, s: Snapshot, io: Faults) {
    && (Active !in io.lost + io.stuck ==>
      && (PendingCovers(s0) ==> PendingCovers(s))
      && (Clean(s0) ==> Clean(s)))
    && (io == NO_FAULTS && PendingExact(s0) ==> PendingExact(s))
  }

  lemma CountKeptTrans(s0: Snapshot, s1: Snapshot, s2: Snapshot, io: Faults)
    requires CountKept(s0, s1, io) && CountKept(s1, s2, io)
    ensures CountKept(s0, s2, io)
  {
  }

  /** `put(ev)`, the order: the event goes to the end, nothing is reordered, repeated or invented, and what is missing was
      counted as dropped or is what the rotation stranded. Only if retention drops the active file and cannot remove it is
      that file owed again as a whole, and all else is dropped. */
  ghost predicate PutOrdered(limits: Limits, s0: Snapshot, s: Snapshot, ev: Event, now: real, io: Faults) {
    var s1 := AfterAppend(s0, ev, now, io);
    var more := AppendedEvents(s0.disk, ev, io);
    if PutRevives(limits, s0, ev, now, io) then
      && s.queue == [] && Due(s) == Events(ActiveLines(s1.disk))
      && s.dropped == s0.dropped + |Due(s0)| + |more|
    else
      && IsSubseq(Due(s), Due(s0) + more)
      && |Due(s)| + |Stranded(limits, s1, io)| + s.dropped == |Due(s0)| + |more| + s0.dropped
      && (io.append.Complete? ==> Content(s) == Due(s))
  }

  /** The cached count keeps what it promised. */
  ghost predicate PutCounted(limits: Limits, s0: Snapshot, s: Snapshot, ev: Event, now: real, io: Faults) {
    && (!PutRevives(limits, s0, ev, now, io) ==>
      && (PendingCovers(s0) ==> PendingCovers(s))
      && (Clean(s0) && !Unlisted(s0.queue, ev, io) ==> Clean(s)))
    && (io == NO_FAULTS && PendingExact(s0) ==> PendingExact(s))
  }

  /** A rotation that fails lets the active file grow by one more line. */
  function SlackAfter(slack: nat, ev: Event, io: Faults): nat {
    if io.rename || Active in io.lost then slack + |ev| + 1 else slack
  }

  /** The active file stays as far below the rotation limit as it was, unless the rotation fails, and a file rotated now
      overshoots by less than the new line more. The other files stay as they were. */
  ghost predicate PutSized(limits: Limits, s0: Snapshot, s: Snapshot, ev: Event, io: Faults) {
    && (forall slack: nat :: ActiveBelow(limits, slack, s0.disk) ==>
      && ActiveBelow(limits, SlackAfter(slack, ev, io), s.disk)
      && forall p :: p in s.disk && p !in s0.disk && p != Active ==>
          p.Rotated? && limits.maxFileBytes <= Bytes(s.disk[p].lines) < limits.maxFileBytes + slack + |ev| + 1)
    && SegmentsKept(s0.disk, s.disk)
  }

  /** `put(ev)` under the faults `io`: order, count, sizes; with room nothing is missing at all; the caps hold. */
  ghost predicate PutOutcome(limits: Limits, s0: Snapshot, s: Snapshot, ev: Event, now: real, io: Faults) {
    && PutOrdered(limits, s0, s, ev, now, io)
    && PutCounted(limits, s0, s, ev, now, io)
    && PutSized(limits, s0, s, ev, io)
    && (io == NO_FAULTS && Roomy(limits, s0, now, |ev| + 1, 1) ==>
          Due(s) == Due(s0) + AppendedEvents(s0.disk, ev, io) && s.dropped == s0.dropped)
    && WithinCaps(limits, s, io.lost) && Young(limits, s, now, io.lost)
    && (io == NO_FAULTS ==> !TornActive(s.disk))
    && (io == NO_FAULTS && Tidy(s0.disk, s0.queue) ==> Tidy(s.disk, s.queue))
  }

  lemma PutCountFacts(limits: Limits, s0: Snapshot, s1: Snapshot, s2: Snapshot, s3: Snapshot, target: Option<Path>,
                      ev: Event, now: real, io: Faults)
    requires WellFormed(s0.disk, s0.queue) && Aligned(s0.disk, s0.queue) && Appended(s0, s1, ev, now, io)
    requires RotatedTo(limits, s1, s2, target, io) && PrunedBy(limits, s2, s3, now, io)
    ensures PutCounted(limits, s0, s3, ev, now, io)
  {
    AppendPhase(s0, s1, ev, now, io);
    RevivedAfterRotation(limits, s1, s2, s3, target, now, io);
    if !Revived(s2.queue, s3) {
      if PendingCovers(s0) {
        PutPending(limits, s0, s1, s2, s3, target, ev, now, io);
      }
      if Clean(s0) && !Unlisted(s0.queue, ev, io) {
        PutClean(limits, s0, s1, s2, s3, target, ev, now, io);
      }
    }
  }

  lemma PutSizeFacts(limits: Limits, s0: Snapshot, s1: Snapshot, s2: Snapshot, s3: Snapshot, target: Option<Path>,
                     ev: Event, now: real, io: Faults)
    requires limits.Valid() && Appended(s0, s1, ev, now, io)
    requires RotatedTo(limits, s1, s2, target, io) && Pruned(s2, s3, io)
    ensures PutSized(limits, s0, s3, ev, io)
  {
    forall slack: nat | ActiveBelow(limits, slack, s0.disk)
      ensures ActiveBelow(limits, SlackAfter(slack, ev, io), s3.disk)
      ensures forall p :: p in s3.disk && p !in s0.disk && p != Active ==>
        p.Rotated? && limits.maxFileBytes <= Bytes(s3.disk[p].lines) < limits.maxFileBytes + slack + |ev| + 1
    {
      PutSizes(limits, s0, s1, s2, s3, target, ev, now, io, slack);
    }
    PutSegments(limits, s0, s1, s2, s3, target, ev, now, io);
  }

  lemma PutFacts(limits: Limits, s0: Snapshot, s1: Snapshot, s2: Snapshot, s3: Snapshot, target: Option<Path>,
                 ev: Event, now: real, io: Faults)
    requires limits.Valid() && WellFormed(s0.disk, s0.queue) && Aligned(s0.disk, s0.queue)
    requires Appended(s0, s1, ev, now, io) && RotatedTo(limits, s1, s2, target, io) && PrunedBy(limits, s2, s3, now, io)
    ensures PutOutcome(limits, s0, s3, ev, now, io)
  {
    PutOrder(limits, s0, s1, s2, s3, target, ev, now, io);
    PutCountFacts(limits, s0, s1, s2, s3, target, ev, now, io);
    PutSizeFacts(limits, s0, s1, s2, s3, target, ev, now, io);
    assert Young(limits, s3, now, io.lost) by {
      AppendPhase(s0, s1, ev, now, io);
      RotatePhase(limits, s1, s2, target, io);
      PrunedYoung(limits, s2, s3, now, io);
    }
    if io == NO_FAULTS {
      PutUntorn(limits, s0, s1, s2, s3, target, ev, now, io);
      if Roomy(limits, s0, now, |ev| + 1, 1) {
        PutRoom(limits, s0, s1, s2, s3, target, ev, now, io);
      }
      if Tidy(s0.disk, s0.queue) {
        PutTidy(limits, s0, s1, s2, s3, target, ev, now, io);
      }
    }
  }

  /** A `restore` will drop the active file and not be able to remove it. */
  ghost predicate RestoreRevives(limits: Limits, s: Snapshot, path: Path, events: seq<Event>, now: real, io: Faults) {
    events != [] && io.write.Whole? && Revives(limits, AfterPutBack(s, path, events, now), io)
  }

  /** `restore(events)`, the order: the events go to the front, unless the active file is revived. */
  ghost predicate RestoreOrdered(limits: Limits, s0: Snapshot, s: Snapshot, path: Path, events: seq<Event>, now: real,
                                 io: Faults) {
    if Revives(limits, AfterPutBack(s0, path, events, now), io) then
      && s.queue == [] && Due(s) == Events(ActiveLines(s0.disk))
      && s.dropped == s0.dropped + |events| + |Due(s0)|
    else
      && IsSubseq(Due(s), events + Due(s0))
      && |Due(s)| + s.dropped == |events| + |Due(s0)| + s0.dropped
  }

  ghost predicate RestoreCounted(limits: Limits, s0: Snapshot, s: Snapshot, path: Path, events: seq<Event>, now: real,
                                 io: Faults) {
    && (!Revives(limits, AfterPutBack(s0, path, events, now), io) ==>
      && (PendingCovers(s0) ==> PendingCovers(s))
      && (Clean(s0) ==> Clean(s)))
    && (io == NO_FAULTS && PendingExact(s0) ==> PendingExact(s))
  }

  /** The buffer after a write that failed: the events are gone, but for a file that nobody queued. */
  function AfterFailedWrite(s: Snapshot, path: Path, events: seq<Event>, now: real, write: Writing): Snapshot {
    var left := LinesLeft(events, write);
    if left.Some? then s.(disk := s.disk[path := File(left.value, now)]) else s
  }

  /** `restore(events)` under the faults `io`, with its file at `path`: order and count, sizes, caps. */
  ghost predicate RestoreOutcome(limits: Limits, s0: Snapshot, s: Snapshot, path: Path, events: seq<Event>, now: real,
                                 io: Faults) {
    && RestoreSized(limits, s0, s, path)
    && if events == [] then s == s0
    else if !io.write.Whole? then
      && s == AfterFailedWrite(s0, path, events, now, io.write)
      && Due(s) == Due(s0) && Content(s) == Content(s0) && OwedLines(s.disk, s.queue) == OwedLines(s0.disk, s0.queue)
      && Orphan(s.disk, s.queue) == Orphan(s0.disk, s0.queue)
    else
      && RestoreOrdered(limits, s0, s, path, events, now, io)
      && RestoreCounted(limits, s0, s, path, events, now, io)
      && (io == NO_FAULTS && Roomy(limits, s0, now, Bytes(Records(events)), |events|) ==>
            && Due(s) == events + Due(s0) && Content(s) == events + Content(s0)
            && s.dropped == s0.dropped)
      && WithinCaps(limits, s, io.lost) && Young(limits, s, now, io.lost)
      && (io == NO_FAULTS && Tidy(s0.disk, s0.queue) ==> Tidy(s.disk, s.queue))
  }

  /** No file changes but the new one. */
  ghost predicate RestoreSized(limits: Limits, s0: Snapshot, s: Snapshot, path: Path) {
    && SegmentsKept(s0.disk, s.disk) && s.disk.Keys <= s0.disk.Keys + {path}
    && (forall slack: nat :: ActiveBelow(limits, slack, s0.disk) ==> ActiveBelow(limits, slack, s.disk))
    && (TornActive(s.disk) ==> TornActive(s0.disk))
  }

  lemma FailedWrite(limits: Limits, s0: Snapshot, path: Path, events: seq<Event>, now: real, io: Faults)
    requires WellFormed(s0.disk, s0.queue) && path != Active && path !in s0.disk
    requires events != [] && !io.write.Whole?
    ensures RestoreOutcome(limits, s0, AfterFailedWrite(s0, path, events, now, io.write), path, events, now, io)
    ensures var s := AfterFailedWrite(s0, path, events, now, io.write);
      WellFormed(s.disk, s.queue) && RestoreSized(limits, s0, s, path)
    ensures io.write.NotOpened? ==> AfterFailedWrite(s0, path, events, now, io.write) == s0
    ensures io.write.Partly? ==> path in AfterFailedWrite(s0, path, events, now, io.write).disk
  {
    var left := LinesLeft(events, io.write);
    if left.Some? {
      UnqueuedFile(s0.disk, s0.queue, path, File(left.value, now));
    }
  }

  /** A new file that is not queued changes nothing that is owed. */
  lemma UnqueuedFile(d: Disk, q: seq<Cursor>, path: Path, file: File)
    requires WellFormed(d, q) && path != Active && path !in d
    ensures var d' := d[path := file];
      && WellFormed(d', q) && Orphan(d', q) == Orphan(d, q) && Unread(d', q) == Unread(d, q)
      && Owed(d', q) == Owed(d, q) && OwedLines(d', q) == OwedLines(d, q)
  {
    var d' := d[path := file];
    assert Unread(d', q) == Unread(d, q) && Orphan(d', q) == Orphan(d, q) by {
      UnreadFrame(d, d', q);
    }
    SameOwed(d, q, d', q);
  }

  lemma SameOwed(d: Disk, q: seq<Cursor>, d': Disk, q': seq<Cursor>)
    requires Unread(d', q') == Unread(d, q) && Orphan(d', q') == Orphan(d, q)
    ensures Owed(d', q') == Owed(d, q) && OwedLines(d', q') == OwedLines(d, q)
  {
    FullUnread(d', q');
    FullUnread(d, q);
  }

  lemma NothingToRestore(limits: Limits, s: Snapshot, path: Path, now: real, io: Faults)
    ensures RestoreOutcome(limits, s, s, path, [], now, io)
  {
  }

  lemma RestoreCountFacts(limits: Limits, s0: Snapshot, s1: Snapshot, s2: Snapshot, path: Path, events: seq<Event>,
                          now: real, io: Faults)
    requires WellFormed(s0.disk, s0.queue) && PutBack(s0, s1, path, events, now) && PrunedBy(limits, s1, s2, now, io)
    requires io.write.Whole?
    ensures RestoreCounted(limits, s0, s2, path, events, now, io)
  {
    RestoreOrder(limits, s0, s1, s2, path, events, now, io);
    PutBackPhase(s0, s1, path, events, now);
    RevivedIff(limits, s1, s2, now, io);
    if !Revives(limits, s1, io) && PendingCovers(s0) {
      RestorePending(s0, s1, s2, path, events, now, io);
    }
  }

  lemma RestoreFacts(limits: Limits, s0: Snapshot, s1: Snapshot, s2: Snapshot, path: Path, events: seq<Event>, now: real,
                     io: Faults)
    requires limits.Valid() && WellFormed(s0.disk, s0.queue) && events != [] && io.write.Whole?
    requires PutBack(s0, s1, path, events, now) && PrunedBy(limits, s1, s2, now, io)
    ensures RestoreOutcome(limits, s0, s2, path, events, now, io)
  {
    RestoreOrder(limits, s0, s1, s2, path, events, now, io);
    RestoreCountFacts(limits, s0, s1, s2, path, events, now, io);
    RestoreSizeFacts(limits, s0, s1, s2, path, events, now, io);
    assert Young(limits, s2, now, io.lost) by {
      PutBackPhase(s0, s1, path, events, now);
      PrunedYoung(limits, s1, s2, now, io);
    }
    if io == NO_FAULTS && Roomy(limits, s0, now, Bytes(Records(events)), |events|) {
      RestoreRoom(limits, s0, s1, s2, path, events, now, io);
    }
    if io == NO_FAULTS && Tidy(s0.disk, s0.queue) {
      RestoreTidy(s0, s1, s2, path, events, now, io);
    }
  }

  /** Unless the active file is revived, a `restore` keeps the order and the count, whatever fails. */
  lemma RestoreOrderKept(limits: Limits, s0: Snapshot, s: Snapshot, path: Path, events: seq<Event>, now: real, io: Faults)
    requires RestoreOutcome(limits, s0, s, path, events, now, io)
    ensures RestoreRevives(limits, s0, path, events, now, io) || IsSubseq(Due(s), events + Due(s0))
    ensures RestoreRevives(limits, s0, path, events, now, io) || (PendingCovers(s0) ==> PendingCovers(s))
    ensures RestoreRevives(limits, s0, path, events, now, io) || (Clean(s0) ==> Clean(s))
    ensures CountKept(s0, s, io)
  {
    SubseqSuffix(events, Due(s0));
  }

  lemma RestoreSizeFacts(limits: Limits, s0: Snapshot, s1: Snapshot, s2: Snapshot, path: Path, events: seq<Event>,
                         now: real, io: Faults)
    requires limits.Valid() && PutBack(s0, s1, path, events, now) && Pruned(s1, s2, io)
    ensures RestoreSized(limits, s0, s2, path)
  {
    assert Bytes([]) == 0;
  }

  /** `take(n)`, when every file opens: the batch is exactly the first `n` events and the rest stays. */
  ghost predicate TakeDelivers(s0: Snapshot, s: Snapshot, n: nat, batch: seq<Event>, io: Faults) {
    io.lost == {} ==>
      && |batch| == (if n < |Content(s0)| then n else |Content(s0)|)
      && batch + Content(s) == Content(s0)
      && (!Lingers(s0.queue, s.queue, io) ==> batch + Due(s) == Due(s0))
  }

  /** Files that cannot be opened only lose events; an active file that lingers is owed again as a whole, and is all that
      is owed then. */
  ghost predicate TakeLoses(s0: Snapshot, s: Snapshot, n: nat, batch: seq<Event>, io: Faults) {
    && |batch| <= n
    && IsSubseq(batch + Content(s), Content(s0))
    && (if Lingers(s0.queue, s.queue, io) then Content(s) == [] && Due(s) == Events(ActiveLines(s0.disk))
        else IsSubseq(batch + Due(s), Due(s0)))
  }

  /** When that delivers an event again, exactly: of a stuck active file, if the batch empties the queue and the file holds
      an event ... */
  ghost predicate TakeRepeats(s0: Snapshot, s: Snapshot, n: nat, batch: seq<Event>, io: Faults) {
    io.lost == {} && Active in io.stuck ==>
      (!IsSubseq(batch + Due(s), Due(s0)) <==>
       Queued(s0.queue, Active) && Active in s0.disk && n > |Content(s0)| && Events(s0.disk[Active].lines) != [])
  }

  /** ... and of one that cannot be opened, if the read gets that far and an event was read from it before. */
  ghost predicate TakeRepeatsUnopened(s0: Snapshot, s: Snapshot, n: nat, batch: seq<Event>, io: Faults) {
    io.lost == {Active} ==>
      (!IsSubseq(batch + Due(s), Due(s0)) <==>
       Queued(s0.queue, Active) && n > |InFront(s0.disk, s0.queue)| && AlreadyRead(s0.disk, s0.queue) != [])
  }

  ghost predicate TakeCounted(s0: Snapshot, s: Snapshot, io: Faults) {
    && (!Lingers(s0.queue, s.queue, io) ==>
      && (PendingCovers(s0) ==> PendingCovers(s))
      && (Clean(s0) ==> Clean(s)))
    && (io == NO_FAULTS && PendingExact(s0) ==> PendingExact(s))
  }

  /** No file changes but the active one, and that only gets shorter. */
  ghost predicate TakeSized(limits: Limits, s0: Snapshot, s: Snapshot) {
    && SegmentsKept(s0.disk, s.disk) && s.disk.Keys <= s0.disk.Keys
    && (forall slack: nat :: ActiveBelow(limits, slack, s0.disk) ==> ActiveBelow(limits, slack, s.disk))
    && (TornActive(s.disk) ==> TornActive(s0.disk))
  }

  /** ... and what it keeps. */
  ghost predicate TakeKeeps(limits: Limits, s0: Snapshot, s: Snapshot, batch: seq<Event>, io: Faults) {
    && s.dropped == s0.dropped && s.pending == Less(s0.pending, |batch|)
    && TakeCounted(s0, s, io)
    && TakeSized(limits, s0, s)
    && (io == NO_FAULTS && Tidy(s0.disk, s0.queue) ==> Tidy(s.disk, s.queue))
    && (io == NO_FAULTS ==> KeepsRoom(limits, s0, s, |batch|))
  }

  lemma TakeFacts(limits: Limits, s0: Snapshot, s: Snapshot, n: nat, batch: seq<Event>, j: nat, now: real, io: Faults)
    requires limits.Valid() && WellFormed(s0.disk, s0.queue) && ReadOut(s0.disk, s0.queue, n, batch, j, s.queue, io)
    requires s.disk == Finished(s0.disk, s0.queue[..j], now, io)
    requires s.dropped == s0.dropped && s.pending == Less(s0.pending, |batch|)
    ensures TakeDelivers(s0, s, n, batch, io)
    ensures TakeLoses(s0, s, n, batch, io)
    ensures TakeRepeats(s0, s, n, batch, io) && TakeRepeatsUnopened(s0, s, n, batch, io)
    ensures TakeKeeps(limits, s0, s, batch, io)
  {
    TakeLosesFacts(s0, s, n, batch, j, now, io);
    TakeRepeatsFacts(s0, s, n, batch, j, now, io);
    TakeUnopenedFacts(s0, s, n, batch, j, now, io);
    TakeDeliversFacts(s0, s, n, batch, j, now, io);
    TakeKeepsFacts(limits, s0, s, n, batch, j, now, io);
  }

  lemma TakeLosesFacts(s0: Snapshot, s: Snapshot, n: nat, batch: seq<Event>, j: nat, now: real, io: Faults)
    requires WellFormed(s0.disk, s0.queue) && ReadOut(s0.disk, s0.queue, n, batch, j, s.queue, io)
    requires s.disk == Finished(s0.disk, s0.queue[..j], now, io)
    ensures TakeLoses(s0, s, n, batch, io)
  {
    ReadOutOwed(s0.disk, s0.queue, n, batch, j, s.queue, now, io);
    if Lingers(s0.queue, s.queue, io) {
      TakeLingers(s0.disk, s0.queue, n, batch, j, s.queue, now, io);
    } else {
      TakeOrder(s0.disk, s0.queue, n, batch, j, s.queue, now, io);
    }
  }

  lemma TakeRepeatsFacts(s0: Snapshot, s: Snapshot, n: nat, batch: seq<Event>, j: nat, now: real, io: Faults)
    requires WellFormed(s0.disk, s0.queue) && ReadOut(s0.disk, s0.queue, n, batch, j, s.queue, io)
    requires s.disk == Finished(s0.disk, s0.queue[..j], now, io)
    ensures TakeRepeats(s0, s, n, batch, io)
  {
    if io.lost == {} && Active in io.stuck {
      TakeStuck(s0.disk, s0.queue, n, batch, j, s.queue, now, io);
    }
  }

  lemma TakeUnopenedFacts(s0: Snapshot, s: Snapshot, n: nat, batch: seq<Event>, j: nat, now: real, io: Faults)
    requires WellFormed(s0.disk, s0.queue) && ReadOut(s0.disk, s0.queue, n, batch, j, s.queue, io)
    requires s.disk == Finished(s0.disk, s0.queue[..j], now, io)
    ensures TakeRepeatsUnopened(s0, s, n, batch, io)
  {
    if io.lost == {Active} {
      if Queued(s0.queue, Active) {
        TakeUnopened(s0.disk, s0.queue, n, batch, j, s.queue, now, io);
      } else {
        TakeOrder(s0.disk, s0.queue, n, batch, j, s.queue, now, io);
      }
    }
  }

  lemma TakeDeliversFacts(s0: Snapshot, s: Snapshot, n: nat, batch: seq<Event>, j: nat, now: real, io: Faults)
    requires WellFormed(s0.disk, s0.queue) && ReadOut(s0.disk, s0.queue, n, batch, j, s.queue, io)
    requires s.disk == Finished(s0.disk, s0.queue[..j], now, io)
    ensures TakeDelivers(s0, s, n, batch, io)
  {
    if io.lost == {} {
      TakePrefix(s0.disk, s0.queue, n, batch, j, now, io, s.queue);
    }
  }

  lemma TakeCountFacts(s0: Snapshot, s: Snapshot, n: nat, batch: seq<Event>, j: nat, now: real, io: Faults)
    requires WellFormed(s0.disk, s0.queue) && ReadOut(s0.disk, s0.queue, n, batch, j, s.queue, io)
    requires s.disk == Finished(s0.disk, s0.queue[..j], now, io)
    requires s.pending == Less(s0.pending, |batch|)
    ensures TakeCounted(s0, s, io)
  {
    assert io == NO_FAULTS ==> Readable(s0.queue, io);
    if !Lingers(s0.queue, s.queue, io) {
      if PendingCovers(s0) {
        TakePending(s0.disk, s0.queue, n, batch, j, s.queue, now, io, s0.pending, s.pending);
      }
      TakeClean(s0, s, n, batch, j, now, io);
    }
  }

  lemma TakeClean(s0: Snapshot, s: Snapshot, n: nat, batch: seq<Event>, j: nat, now: real, io: Faults)
    requires WellFormed(s0.disk, s0.queue) && ReadOut(s0.disk, s0.queue, n, batch, j, s.queue, io)
    requires s.disk == Finished(s0.disk, s0.queue[..j], now, io) && !Lingers(s0.queue, s.queue, io)
    ensures Clean(s0) ==> Clean(s)
  {
    ReadOutOwed(s0.disk, s0.queue, n, batch, j, s.queue, now, io);
    assert NonBlank([]) == 0;
  }

  lemma TakeKeepsFacts(limits: Limits, s0: Snapshot, s: Snapshot, n: nat, batch: seq<Event>, j: nat, now: real, io: Faults)
    requires limits.Valid() && WellFormed(s0.disk, s0.queue) && ReadOut(s0.disk, s0.queue, n, batch, j, s.queue, io)
    requires s.disk == Finished(s0.disk, s0.queue[..j], now, io)
    requires s.dropped == s0.dropped && s.pending == Less(s0.pending, |batch|)
    ensures TakeKeeps(limits, s0, s, batch, io)
  {
    TakeCountFacts(s0, s, n, batch, j, now, io);
    TakeSizeFacts(limits, s0, s, j, now, io);
    if io == NO_FAULTS {
      ReadRoomy(limits, s0, s, j, now, |batch|);
      if Tidy(s0.disk, s0.queue) {
        FinishedTidyRest(s0.disk, s0.queue, j, s.queue, now);
      }
    }
  }

  lemma TakeSizeFacts(limits: Limits, s0: Snapshot, s: Snapshot, j: nat, now: real, io: Faults)
    requires limits.Valid() && WellFormed(s0.disk, s0.queue) && j <= |s0.queue|
    requires s.disk == Finished(s0.disk, s0.queue[..j], now, io)
    ensures TakeSized(limits, s0, s)
  {
    FinishedSmall(limits, s0.disk, s0.queue[..j], now, io);
    FinishedKeys(s0.disk, s0.queue[..j], now, io);
  }

  /** `restore(take(n))` gives the same sequence back, and the same count, when there is room for the copy. */
  lemma RestoreUndoesTake(limits: Limits, s0: Snapshot, s1: Snapshot, s2: Snapshot, n: nat, batch: seq<Event>, path: Path,
                          now: real)
    requires TakeDelivers(s0, s1, n, batch, NO_FAULTS) && TakeKeeps(limits, s0, s1, batch, NO_FAULTS)
    requires RestoreOutcome(limits, s1, s2, path, batch, now, NO_FAULTS)
    requires Roomy(limits, s1, now, Bytes(Records(batch)), |batch|)
    ensures Content(s2) == Content(s0) && Due(s2) == Due(s0)
    ensures PendingExact(s0) ==> PendingExact(s2) && s2.pending == s0.pending
  {
    assert Due(s2) == Due(s0);
  }
}
