/** Runs of the buffer in which a promise fails, one for each condition under which it does. */
module BufferExamples {
  import opened Sequences
  import opened BufferDisk
  import opened BufferReading
  import opened BufferReload
  import opened BufferSteps
  import opened TelemetryBuffers

  /** A process that finds the directory of a death right after a rotation undercounts what it owes by the event in the
      active file. */
  method StrayOpening(settings: Settings) returns (b: TelemetryBuffer)
    ensures fresh(b) && b.Valid()
    ensures b.pending == 1 && OwedLines(b.disk, b.queue) == 2
  {
    var rotated, a, c := Rotated(0, 0), File([Record("a")], 0.0), File([Record("b")], 0.0);
    var d := map[rotated := a, Active := c];
    var q := [Cursor(rotated, 0)];
    StrayExample();
    b := new TelemetryBuffer.Open(settings, d, Some(q));
    RecoveredSame(d, q);
    FullUnread(d, q);
    UnreadSingle(d, q[0]);
    assert Rest(d, q[0]) == [Record("a")] && [Record("a")][1..] == [] && [Record("b")][1..] == [];
    assert Orphan(d, q) == [Record("b")];
  }

  lemma Texts(a: Event, b: Event)
    ensures Events([Record(a)]) == [a] && NonBlank([Record(a)]) == 1
    ensures Events([Record(a), Record(b)]) == [a, b] && NonBlank([Record(a), Record(b)]) == 2
  {
    assert [Record(a)][1..] == [] && [Record(a), Record(b)][1..] == [Record(b)] && [Record(b)][1..] == [];
  }

  lemma ActiveOwed(d: Disk, off: nat)
    requires Active in d && off <= |d[Active].lines|
    ensures Unread(d, [Cursor(Active, off)]) == d[Active].lines[off..]
    ensures Owed(d, [Cursor(Active, off)]) == Events(d[Active].lines[off..])
  {
    UnreadSingle(d, Cursor(Active, off));
    assert [Cursor(Active, off)][0].path == Active;
  }

  /** One of two events was delivered. A cap of one event makes the next `put` drop the active file, which cannot be removed:
      the delivered event is owed again. */
  method RevivedPut() returns (b: TelemetryBuffer, ghost before: seq<Event>)
    ensures fresh(b) && b.Valid()
    ensures before == ["b"] && b.Backlog() == ["a", "b", "c"] && b.Contents() == []
  {
    var d := map[Active := File([Record("a"), Record("b")], 0.0)];
    var q := [Cursor(Active, 1)];
    b := new TelemetryBuffer.Open(Settings(1, 1.0, 1024, 1024), d, Some(q));
    OpenedAtSecond(d, b.Now());
    ghost var s0 := b.Now();
    before := b.Backlog();
    var io := NO_FAULTS.(stuck := {Active});
    b.Put("c", 0.0, 0, io);
    AllAgain(b.limits, s0, b.Now(), io);
  }

  lemma OpenedAtSecond(d: Disk, s: Snapshot)
    requires d == map[Active := File([Record("a"), Record("b")], 0.0)] && Opened(d, Some([Cursor(Active, 1)]), s)
    ensures s.queue == [Cursor(Active, 1)] && s.pending == 1 && Due(s) == ["b"]
  {
    RecoveredSame(d, [Cursor(Active, 1)]);
    ActiveOwed(d, 1);
    Texts("b", "c");
  }

  lemma AllAgain(limits: Limits, s0: Snapshot, s: Snapshot, io: Faults)
    requires limits.maxEvents == 1 && limits.maxFileBytes == 1024 && io == NO_FAULTS.(stuck := {Active})
    requires s0.disk == map[Active := File([Record("a"), Record("b")], 0.0)] && s0.queue == [Cursor(Active, 1)]
    requires s0.pending == 1 && PutOrdered(limits, s0, s, "c", 0.0, io)
    ensures s.queue == [] && Due(s) == ["a", "b", "c"]
  {
    RevivedCondition(limits, s0, io);
    assert ActiveLines(AfterAppend(s0, "c", 0.0, io).disk) == [Record("a")] + [Record("b"), Record("c")];
    EventsConcat([Record("a")], [Record("b"), Record("c")]);
    Texts("b", "c");
    Texts("a", "b");
  }

  lemma RevivedCondition(limits: Limits, s0: Snapshot, io: Faults)
    requires limits.maxEvents == 1 && limits.maxFileBytes == 1024 && io == NO_FAULTS.(stuck := {Active})
    requires s0.disk == map[Active := File([Record("a"), Record("b")], 0.0)] && s0.queue == [Cursor(Active, 1)]
    requires s0.pending == 1
    ensures PutRevives(limits, s0, "c", 0.0, io)
  {
    var s1 := AfterAppend(s0, "c", 0.0, io);
    var last := Cursor(Active, 1);
    assert s0.queue[0].path == Active && s1.queue == [last];
    assert ActiveLines(s1.disk) == [Record("a"), Record("b"), Record("c")];
    assert Bytes(ActiveLines(s1.disk)) == 6 by {
      BytesConcat([Record("a")], [Record("b"), Record("c")]);
      BytesConcat([Record("b")], [Record("c")]);
      assert [Record("b")] + [Record("c")] == [Record("b"), Record("c")];
      assert [Record("a")] + [Record("b"), Record("c")] == [Record("a"), Record("b"), Record("c")];
      assert [Record("a")][1..] == [] && [Record("b")][1..] == [] && [Record("c")][1..] == [];
    }
    assert Count(s1.disk, [last], {}) == Count(s1.disk, s1.queue, {});
    assert OverCaps(limits, s1, [last], {});
  }

  /** An append that is cut short swallows the event of the next `put` with its own. */
  lemma SwallowedExample()
    ensures var s0 := Snapshot(map[], [], 0, 0);
      var s1 := AfterAppend(s0, "ab", 0.0, NO_FAULTS.(append := Cut(0)));
      var s2 := AfterAppend(s1, "cd", 0.0, NO_FAULTS);
      Due(s2) == [] && s2.pending == 2
  {
    var s0 := Snapshot(map[], [], 0, 0);
    var io := NO_FAULTS.(append := Cut(0));
    var s1 := AfterAppend(s0, "ab", 0.0, io);
    AppendPhase(s0, s1, "ab", 0.0, io);
    AppendTears(s0, "ab", 0.0, io);
    AppendPhase(s1, AfterAppend(s1, "cd", 0.0, NO_FAULTS), "cd", 0.0, NO_FAULTS);
    FullUnread(s0.disk, s0.queue);
  }

  /** A `restore` that breaks off leaves its first event in a file that nobody queued; the next process finds it. */
  method FoundAgain(settings: Settings) returns (b: TelemetryBuffer, ghost before: seq<Event>)
    ensures fresh(b) && b.Valid()
    ensures before == [] && b.Backlog() == ["a"]
  {
    var first := EmptyBuffer(settings);
    ghost var s0 := first.Now();
    ghost var path := first.Restore(["a", "b"], 0.0, 0, NO_FAULTS.(write := Partly(1, Refused)));
    before := first.Backlog();
    FileLeft(first.limits, s0, first.Now(), path);
    b := new TelemetryBuffer.Open(settings, first.disk, first.saved);
    OneFile(first.disk, path, b.queue);
  }

  method EmptyBuffer(settings: Settings) returns (b: TelemetryBuffer)
    ensures fresh(b) && b.Valid() && b.disk == map[] && b.queue == [] && b.saved == Some([]) && b.Backlog() == []
  {
    b := new TelemetryBuffer.Open(settings, map[], None);
    DiscoveredTidy(map[], b.queue);
    NothingOrphaned(map[], []);
  }

  lemma FileLeft(limits: Limits, s0: Snapshot, s: Snapshot, path: Path)
    requires s0.disk == map[] && s0.queue == [] && Due(s0) == []
    requires RestoreOutcome(limits, s0, s, path, ["a", "b"], 0.0, NO_FAULTS.(write := Partly(1, Refused)))
    ensures s.disk == map[path := File(Records(["a"]) + [], 0.0)] && s.queue == [] && Due(s) == []
  {
    assert ["a", "b"][..1] == ["a"];
  }

  lemma OneFile(d: Disk, path: Path, q: seq<Cursor>)
    requires d.Keys == {path} && path.Restored? && d[path].lines == Records(["a"]) + [] && Discovered(d, q)
    ensures Owed(d, q) == ["a"]
  {
    var c := Cursor(path, 0);
    assert Paths([c]) == {path} by {
      assert [c][0].path == path;
    }
    TidyIff(d, [c]);
    LoneFile(d, c, [c], q);
    EventsOfRecords(["a"]);
    assert Records(["a"]) + [] == Records(["a"]);
  }
}
