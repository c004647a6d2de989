/** What a new process makes of the directory and the state file it finds. */
module BufferReload {
  import opened Sequences
  import opened BufferDisk
  import opened BufferReading
  import opened BufferSteps

  /** The saved cursors whose file is still there; a cursor beyond the end of its file starts over. */
  function Recovered(d: Disk, saved: seq<Cursor>): seq<Cursor> {
    if saved == [] then [] else RecoveredOne(d, saved[0]) + Recovered(d, saved[1..])
  }

  function RecoveredOne(d: Disk, c: Cursor): seq<Cursor> {
    if c.path !in d then [] else [if c.off > |d[c.path].lines| then Cursor(c.path, 0) else c]
  }

  /** `_discover_files`: every file from its start, restore files first, then rotated ones, the active file last. */
  ghost predicate Discovered(d: Disk, q: seq<Cursor>) {
    && WellFormed(d, q)
    && Paths(q) == d.Keys
    && (forall i :: 0 <= i < |q| ==> q[i].off == 0)
    && (forall i, j :: 0 <= i < j < |q| && q[j].path.Restored? ==> q[i].path.Restored?)
  }

  /** The queue that `_load_state` builds. */
  ghost predicate Loaded(d: Disk, saved: Option<seq<Cursor>>, q: seq<Cursor>) {
    var known := if saved.Some? then Recovered(d, saved.value) else [];
    if known != [] then q == known else Discovered(d, q)
  }

  /** A queue as this class writes it to the state file. */
  ghost predicate Written(q: seq<Cursor>) {
    && (forall i, j :: 0 <= i < j < |q| ==> q[i].path != q[j].path)
    && (forall i :: 0 <= i < |q| - 1 ==> q[i].path != Active)
  }

  /** What a process has made of the directory and the state file when it is ready. The count is right, and covers
      everything owed exactly if no active file with lines was left out of the queue. */
  ghost predicate Opened(d: Disk, found: Option<seq<Cursor>>, s: Snapshot) {
    && s.disk == d && s.dropped == 0
    && WellFormed(d, s.queue) && Loaded(d, found, s.queue)
    && (found.Some? && WellFormed(d, found.value) && Tidy(d, found.value) ==>
         Tidy(d, s.queue) && OwedText(d, s.queue) == OwedText(d, found.value))
    && s.pending == NonBlank(Unread(d, s.queue))
    && (PendingCovers(s) <==> !Stray(d, found))
    && (Counted(s) <==> !Stray(d, found))
  }

  lemma {:induction false} RecoveredFrom(d: Disk, saved: seq<Cursor>)
    ensures forall i :: 0 <= i < |Recovered(d, saved)| ==>
      Recovered(d, saved)[i].path in d
      && Recovered(d, saved)[i].off <= |d[Recovered(d, saved)[i].path].lines|
      && Queued(saved, Recovered(d, saved)[i].path)
  {
    if saved != [] {
      RecoveredFrom(d, saved[1..]);
      var tail := Recovered(d, saved[1..]);
      var r := Recovered(d, saved);
      var m := |r| - |tail|;
      forall i | 0 <= i < |r|
        ensures r[i].path in d && r[i].off <= |d[r[i].path].lines| && Queued(saved, r[i].path)
      {
        if i >= m {
          assert r[i] == tail[i - m];
          var k :| 0 <= k < |saved[1..]| && saved[1..][k].path == r[i].path;
          assert saved[k + 1].path == r[i].path;
        } else {
          assert saved[0].path == r[i].path;
        }
      }
    }
  }

  lemma WellFormedCons(d: Disk, c: Cursor, q: seq<Cursor>)
    requires WellFormed(d, q) && !Queued(q, c.path) && c.path in d && c.off <= |d[c.path].lines|
    requires q != [] ==> c.path != Active
    ensures WellFormed(d, [c] + q)
  {
    var r := [c] + q;
    assert forall i :: 0 < i < |r| ==> r[i] == q[i - 1];
  }

  lemma {:induction false} RecoveredWellFormed(d: Disk, saved: seq<Cursor>)
    requires Written(saved)
    ensures WellFormed(d, Recovered(d, saved))
  {
    if saved != [] {
      var c, rest := saved[0], saved[1..];
      assert forall i :: 0 <= i < |rest| ==> rest[i] == saved[i + 1];
      RecoveredWellFormed(d, rest);
      RecoveredQueued(d, rest, c.path);
      if c.path in d {
        assert Recovered(d, rest) != [] ==> rest != [];
        WellFormedCons(d, if c.off > |d[c.path].lines| then Cursor(c.path, 0) else c, Recovered(d, rest));
      }
    }
  }

  /** A queue that is built from the disk is aligned with it. */
  lemma LoadedAligned(d: Disk, found: Option<seq<Cursor>>, q: seq<Cursor>)
    requires found.Some? ==> Aligned(d, found.value)
    requires Loaded(d, found, q)
    ensures Aligned(d, q)
  {
    if found.Some? {
      RecoveredOff(d, found.value);
    }
  }

  lemma {:induction false} RecoveredOff(d: Disk, saved: seq<Cursor>)
    requires Aligned(d, saved)
    ensures Aligned(d, Recovered(d, saved))
  {
    if saved != [] {
      RecoveredOff(d, saved[1..]);
    }
  }

  /** Cursors that fit the disk are recovered as they are. */
  lemma {:induction false} RecoveredSame(d: Disk, saved: seq<Cursor>)
    requires forall i :: 0 <= i < |saved| ==> saved[i].path in d && saved[i].off <= |d[saved[i].path].lines|
    ensures Recovered(d, saved) == saved
  {
    if saved != [] {
      RecoveredSame(d, saved[1..]);
    }
  }

  lemma {:induction false} RecoveredConcat(d: Disk, a: seq<Cursor>, b: seq<Cursor>)
    ensures Recovered(d, a + b) == Recovered(d, a) + Recovered(d, b)
  {
    if a == [] {
      assert a + b == b;
    } else {
      RecoveredConcat(d, a[1..], b);
      assert (a + b)[0] == a[0] && (a + b)[1..] == a[1..] + b;
      ConcatAssoc(RecoveredOne(d, a[0]), Recovered(d, a[1..]), Recovered(d, b));
    }
  }

  lemma {:induction false} RecoveredGone(d: Disk, saved: seq<Cursor>)
    requires forall i :: 0 <= i < |saved| ==> saved[i].path !in d
    ensures Recovered(d, saved) == []
  {
    if saved != [] {
      RecoveredGone(d, saved[1..]);
    }
  }

  /** Of a tidy directory without a queued file, discovery finds at most the active file. */
  lemma DiscoveredTidy(d: Disk, q: seq<Cursor>)
    requires Discovered(d, q) && d.Keys <= {Active}
    ensures q == if Active in d then [Cursor(Active, 0)] else []
  {
    PathsCount(d, q);
    if Active in d {
      assert d.Keys == {Active};
      assert q[0].path in Paths(q);
      assert q == [Cursor(Active, 0)];
    } else {
      assert d.Keys == {};
    }
  }

  /** A queue with distinct paths is as long as its set of paths. */
  lemma {:induction false} PathsCount(d: Disk, q: seq<Cursor>)
    requires WellFormed(d, q)
    ensures |Paths(q)| == |q|
    decreases |q|
  {
    if q != [] {
      var n := |q| - 1;
      WithoutPaths(d, q, n);
      assert q[..n] + q[n + 1..] == q[..n];
      FrontWellFormed(d, q);
      PathsCount(d, q[..n]);
      assert q[n].path in Paths(q);
      assert Paths(q) == Paths(q[..n]) + {q[n].path};
    }
  }

  lemma FrontWellFormed(d: Disk, q: seq<Cursor>)
    requires WellFormed(d, q) && q != []
    ensures WellFormed(d, q[..|q| - 1])
  {
    var r := q[..|q| - 1];
    assert forall i :: 0 <= i < |r| ==> r[i] == q[i];
  }

  /** What the buffer still owes, line by line. */
  ghost function OwedText(d: Disk, q: seq<Cursor>): seq<Line> {
    Unread(d, FullQueue(d, q))
  }

  /** A reload of a state that describes the directory owes the same lines, and again describes it. */
  lemma ReloadSame(d: Disk, saved: seq<Cursor>, q: seq<Cursor>)
    requires WellFormed(d, saved) && Tidy(d, saved) && Loaded(d, Some(saved), q)
    ensures WellFormed(d, q) && Tidy(d, q)
    ensures OwedText(d, q) == OwedText(d, saved)
    ensures Orphan(d, q) == if saved == [] then [] else Orphan(d, saved)
  {
    RecoveredSame(d, saved);
    if saved == [] {
      DiscoveredTidy(d, q);
      assert FullQueue(d, q) == FullQueue(d, saved) by {
        if Active in d {
          assert q[0].path == Active;
        }
      }
    }
  }

  /** A directory may also hold files that were dropped but could not be removed. They are found again only by a process
      that recovers no cursor; so a reload owes the same events exactly if the saved queue was not empty or those files
      hold no event. */
  lemma ReloadLeftovers(d: Disk, saved: seq<Cursor>, q: seq<Cursor>)
    requires WellFormed(d, saved) && Loaded(d, Some(saved), q)
    ensures WellFormed(d, q)
    ensures Owed(d, q) == Owed(d, saved)
      <==> saved != [] || (forall p :: p in d && p != Active ==> Events(d[p].lines) == [])
  {
    RecoveredSame(d, saved);
    if saved == [] {
      DiscoveredOwes(d, q);
    }
  }

  lemma DiscoveredOwes(d: Disk, q: seq<Cursor>)
    requires Discovered(d, q)
    ensures Owed(d, q) == Owed(d, []) <==> (forall p :: p in d && p != Active ==> Events(d[p].lines) == [])
  {
    var front := FrontOf(q);
    DiscoveredText(d, q);
    var before, tail := Events(Unread(d, front)), Events(Orphan(d, []));
    assert Owed(d, []) == tail by {
      FullUnread(d, []);
      assert Events([]) == [] && [] + tail == tail;
    }
    assert before + tail == tail <==> before == [] by {
      assert [] + tail == tail;
    }
    assert before == [] <==> (forall p :: p in d && p != Active ==> Events(d[p].lines) == []) by {
      DiscoveredFront(d, q);
      AllEmptyIff(d, front);
    }
  }

  lemma AllEmptyIff(d: Disk, front: seq<Cursor>)
    requires forall i :: 0 <= i < |front| ==>
      front[i].path in d && front[i].path != Active && Rest(d, front[i]) == d[front[i].path].lines
    requires forall p :: p in d && p != Active ==> Queued(front, p)
    ensures Events(Unread(d, front)) == [] <==> (forall p :: p in d && p != Active ==> Events(d[p].lines) == [])
  {
    NoEventsIff(d, front);
    if Events(Unread(d, front)) == [] {
      forall p | p in d && p != Active ensures Events(d[p].lines) == [] {
        assert Queued(front, p);
        var i :| 0 <= i < |front| && front[i].path == p;
        assert Events(Rest(d, front[i])) == [];
      }
    }
    if forall p :: p in d && p != Active ==> Events(d[p].lines) == [] {
      forall i | 0 <= i < |front| ensures Events(Rest(d, front[i])) == [] {
        assert Events(d[front[i].path].lines) == [];
      }
    }
  }

  /** Everything but the active file, in the order of discovery. */
  function FrontOf(q: seq<Cursor>): seq<Cursor> {
    if q != [] && q[|q| - 1].path == Active then q[..|q| - 1] else q
  }

  lemma DiscoveredLast(d: Disk, q: seq<Cursor>)
    requires Discovered(d, q)
    ensures q == if Active in d then FrontOf(q) + [Cursor(Active, 0)] else FrontOf(q)
  {
    if Active in d {
      assert Active in Paths(q);
      var i :| 0 <= i < |q| && q[i].path == Active;
      assert i == |q| - 1;
    } else {
      assert q != [] ==> q[|q| - 1].path in d;
    }
  }

  lemma DiscoveredText(d: Disk, q: seq<Cursor>)
    requires Discovered(d, q)
    ensures Owed(d, q) == Events(Unread(d, FrontOf(q))) + Events(Orphan(d, []))
  {
    var front, last := FrontOf(q), Cursor(Active, 0);
    DiscoveredLast(d, q);
    if Active in d {
      ActiveLast(d, front, last);
    } else {
      assert Owed(d, front) == Events(Unread(d, front)) && Orphan(d, []) == [] && Events([]) == [];
      assert Events(Unread(d, front)) + [] == Events(Unread(d, front));
    }
  }

  lemma ActiveLast(d: Disk, front: seq<Cursor>, last: Cursor)
    requires Active in d && last == Cursor(Active, 0)
    ensures Owed(d, front + [last]) == Events(Unread(d, front)) + Events(Orphan(d, []))
  {
    assert (front + [last])[|front|].path == Active;
    QueuedOwes(d, front + [last]);
    LastUnread(d, front, last);
    assert Rest(d, last) == Orphan(d, []);
  }

  lemma DiscoveredFront(d: Disk, q: seq<Cursor>)
    requires Discovered(d, q)
    ensures forall i :: 0 <= i < |FrontOf(q)| ==>
      var c := FrontOf(q)[i]; c.path in d && c.path != Active && Rest(d, c) == d[c.path].lines
    ensures forall p :: p in d && p != Active ==> Queued(FrontOf(q), p)
  {
    var front := FrontOf(q);
    assert forall i :: 0 <= i < |front| ==> front[i] == q[i];
    forall p | p in d && p != Active ensures Queued(front, p) {
      assert p in Paths(q);
      var i :| 0 <= i < |q| && q[i].path == p;
      assert front[i].path == p;
    }
  }

  lemma {:induction false} NoEventsIff(d: Disk, q: seq<Cursor>)
    ensures Events(Unread(d, q)) == [] <==> forall i :: 0 <= i < |q| ==> Events(Rest(d, q[i])) == []
  {
    if q != [] {
      EventsConcat(Rest(d, q[0]), Unread(d, q[1..]));
      NoEventsIff(d, q[1..]);
      assert forall i :: 0 <= i < |q[1..]| ==> q[1..][i] == q[i + 1];
      assert (forall i :: 0 <= i < |q| ==> Events(Rest(d, q[i])) == []) <==>
        Events(Rest(d, q[0])) == [] && (forall i :: 0 <= i < |q[1..]| ==> Events(Rest(d, q[1..][i])) == []) by {
        if Events(Rest(d, q[0])) == [] && (forall i :: 0 <= i < |q[1..]| ==> Events(Rest(d, q[1..][i])) == []) {
          forall i | 0 <= i < |q| ensures Events(Rest(d, q[i])) == [] {
            if i > 0 {
              assert q[i] == q[1..][i - 1];
            }
          }
        }
      }
    }
  }

  // ---- A stray active file ----

  /** The state file leads to some file that is there, but not to the active one, which holds lines. */
  ghost predicate Stray(d: Disk, found: Option<seq<Cursor>>) {
    && found.Some?
    && (exists i :: 0 <= i < |found.value| && found.value[i].path in d)
    && !Queued(found.value, Active)
    && NonBlank(Orphan(d, [])) > 0
  }

  lemma {:induction false} RecoveredQueued(d: Disk, saved: seq<Cursor>, p: Path)
    ensures Queued(Recovered(d, saved), p) <==> Queued(saved, p) && p in d
  {
    if saved != [] {
      var head, rest, tail := saved[0], saved[1..], Recovered(d, saved[1..]);
      var r := Recovered(d, saved);
      RecoveredQueued(d, rest, p);
      QueuedConcat([head], rest, p);
      assert saved == [head] + rest;
      assert Queued([head], p) <==> head.path == p by {
        assert [head][0] == head;
      }
      if head.path in d {
        var c := if head.off > |d[head.path].lines| then Cursor(head.path, 0) else head;
        QueuedConcat([c], tail, p);
        assert Queued([c], p) <==> c.path == p by {
          assert [c][0] == c;
        }
      } else {
        assert r == tail;
      }
    }
  }

  lemma QueuedConcat(a: seq<Cursor>, b: seq<Cursor>, p: Path)
    ensures Queued(a + b, p) <==> Queued(a, p) || Queued(b, p)
  {
    if Queued(a, p) {
      var i :| 0 <= i < |a| && a[i].path == p;
      assert (a + b)[i].path == p;
    }
    if Queued(b, p) {
      var i :| 0 <= i < |b| && b[i].path == p;
      assert (a + b)[|a| + i].path == p;
    }
  }

  /** Exactly then does a new process leave lines out of its queue, and of its count. */
  lemma StrayIff(d: Disk, found: Option<seq<Cursor>>, q: seq<Cursor>)
    requires found.Some? ==> Written(found.value)
    requires Loaded(d, found, q)
    ensures NonBlank(Orphan(d, q)) > 0 <==> Stray(d, found)
  {
    assert NonBlank([]) == 0;
    if found.Some? {
      var known := Recovered(d, found.value);
      RecoveredQueued(d, found.value, Active);
      KnownIff(d, found.value);
      if known == [] && Active in d {
        assert Active in Paths(q);
      }
    } else if Active in d {
      assert Active in Paths(q);
    }
  }

  lemma KnownIff(d: Disk, saved: seq<Cursor>)
    ensures Recovered(d, saved) != [] <==> exists i :: 0 <= i < |saved| && saved[i].path in d
  {
    var known := Recovered(d, saved);
    if known != [] {
      assert Queued(known, known[0].path);
      RecoveredQueued(d, saved, known[0].path);
      var i :| 0 <= i < |saved| && saved[i].path == known[0].path;
    }
    if i :| 0 <= i < |saved| && saved[i].path in d {
      RecoveredQueued(d, saved, saved[i].path);
    }
  }

  /** A rotated file with one event and an active one with another, and a state file that knows the rotated one alone: what
      a crash in the `put` after a rotation leaves. */
  lemma StrayExample()
    ensures var d := map[Rotated(0, 0) := File([Record("a")], 0.0), Active := File([Record("b")], 0.0)];
      Stray(d, Some([Cursor(Rotated(0, 0), 0)]))
  {
    var found := [Cursor(Rotated(0, 0), 0)];
    assert found[0].path == Rotated(0, 0);
    assert [Record("b")][1..] == [];
  }

  /** A crash in the append of `put`, whatever it left of the line: the reload owes what the append added, and nothing is
      lost. */
  lemma ReloadAfterAppend(d0: Disk, q0: seq<Cursor>, ev: Event, now: real, io: Faults, q: seq<Cursor>)
    requires WellFormed(d0, q0) && Aligned(d0, q0) && Tidy(d0, q0)
    requires Loaded(DiskAfterAppend(d0, ev, now, io), Some(q0), q)
    ensures var d := DiskAfterAppend(d0, ev, now, io);
      && WellFormed(d, q) && Tidy(d, q)
      && Owed(d, q) == Owed(d0, q0) + AppendedEvents(d0, ev, io)
      && OwedLines(d, q) == OwedLines(d0, q0) + AppendedLines(d0, ev, io)
  {
    AppendedSaved(d0, q0, ev, now, io);
    ReloadSame(DiskAfterAppend(d0, ev, now, io), q0, q);
  }

  lemma AppendedSaved(d0: Disk, q0: seq<Cursor>, ev: Event, now: real, io: Faults)
    requires WellFormed(d0, q0) && Aligned(d0, q0) && Tidy(d0, q0)
    ensures var d := DiskAfterAppend(d0, ev, now, io);
      && WellFormed(d, q0) && Aligned(d, q0) && Tidy(d, q0)
      && Owed(d, q0) == Owed(d0, q0) + AppendedEvents(d0, ev, io)
      && OwedLines(d, q0) == OwedLines(d0, q0) + AppendedLines(d0, ev, io)
  {
    assert Tidy(DiskAfterAppend(d0, ev, now, io), q0) by {
      TidyIff(d0, q0);
      TidyIff(DiskAfterAppend(d0, ev, now, io), q0);
    }
    AppendedSoFar(d0, q0, ev, now, io);
  }

  lemma AppendedSoFar(d0: Disk, q0: seq<Cursor>, ev: Event, now: real, io: Faults)
    requires WellFormed(d0, q0) && Aligned(d0, q0)
    ensures var d := DiskAfterAppend(d0, ev, now, io);
      && WellFormed(d, q0) && Aligned(d, q0)
      && Owed(d, q0) == Owed(d0, q0) + AppendedEvents(d0, ev, io)
      && OwedLines(d, q0) == OwedLines(d0, q0) + AppendedLines(d0, ev, io)
  {
    var left := LineLeft(ev, io.append);
    if left.Some? {
      AppendedWellFormed(d0, q0, left.value, now);
      AppendedUnread(d0, q0, left.value, now);
    }
  }

  /** The active file is left out of the queue exactly if others were queued, it was not, and it holds a line. */
  lemma StrayAfterAppend(d0: Disk, q0: seq<Cursor>, ev: Event, now: real, io: Faults)
    requires WellFormed(d0, q0)
    ensures Stray(DiskAfterAppend(d0, ev, now, io), Some(q0))
      <==> q0 != [] && !Queued(q0, Active) && (LineLeft(ev, io.append).Some? || NonBlank(ActiveLines(d0)) > 0)
  {
    var d := DiskAfterAppend(d0, ev, now, io);
    var left := LineLeft(ev, io.append);
    if left.Some? {
      ExtendedCounts(ActiveLines(d0), left.value);
      if TornActive(d0) {
        TornLines(ActiveLines(d0));
      }
    }
    assert Orphan(d, []) == ActiveLines(d);
    if q0 != [] {
      assert q0[0].path in d;
    }
  }

  /** `a` is `b` without its first `k` elements, for some `k` of at most `n`. */
  ghost predicate IsLateSuffix<T>(a: seq<T>, b: seq<T>, n: nat) {
    |b| - n <= |a| <= |b| && a == b[|b| - |a|..]
  }

  /** A crash inside `take`, after its work on the files and before the state write: the reload owes a
      suffix of what was owed, which repeats at most the batch that nobody received. */
  lemma ReloadAfterRead(d0: Disk, q0: seq<Cursor>, n: nat, batch: seq<Event>, j: nat, q1: seq<Cursor>, now: real,
                        q: seq<Cursor>)
    requires WellFormed(d0, q0) && Tidy(d0, q0)
    requires ReadOut(d0, q0, n, batch, j, q1, NO_FAULTS)
    requires Loaded(Finished(d0, q0[..j], now, NO_FAULTS), Some(q0), q)
    ensures var d := Finished(d0, q0[..j], now, NO_FAULTS);
      && WellFormed(d, q) && Tidy(d, q)
      && IsLateSuffix(Owed(d, q), Owed(d0, q0), |batch|)
      && OwedText(d0, q0) == Unread(d0, q0[..j]) + OwedText(d, q)
      && NonBlank(Orphan(d, q)) <= NonBlank(Orphan(d0, q0))
  {
    var d := Finished(d0, q0[..j], now, NO_FAULTS);
    ReloadedQueue(d0, q0, j, now, q);
    RestOwed(d0, q0, j, now, q);
    SplitText(d0, q0, j);
    ReadCovers(d0, q0, n, batch, j, q1);
    EventsConcat(Unread(d0, q0[..j]), OwedText(d, q));
    SuffixAfter(Events(Unread(d0, q0[..j])), Owed(d, q));
  }

  lemma SuffixAfter<T>(a: seq<T>, b: seq<T>)
    ensures (a + b)[|a|..] == b
  {
  }

  lemma SplitText(d: Disk, q: seq<Cursor>, j: nat)
    requires j <= |q|
    ensures OwedText(d, q) == Unread(d, q[..j]) + (Unread(d, q[j..]) + Orphan(d, q))
  {
    assert q == q[..j] + q[j..];
    UnreadConcat(d, q[..j], q[j..]);
    FullUnread(d, q);
    ConcatAssoc(Unread(d, q[..j]), Unread(d, q[j..]), Orphan(d, q));
  }

  lemma SplitUnread(d: Disk, q: seq<Cursor>, j: nat)
    requires j <= |q|
    ensures Events(Unread(d, q)) == Events(Unread(d, q[..j])) + Events(Unread(d, q[j..]))
  {
    assert q == q[..j] + q[j..];
    UnreadConcat(d, q[..j], q[j..]);
    EventsConcat(Unread(d, q[..j]), Unread(d, q[j..]));
  }

  /** The reloaded queue: the files the read did not finish, or what is left of the active file. */
  lemma ReloadedQueue(d0: Disk, q0: seq<Cursor>, j: nat, now: real, q: seq<Cursor>)
    requires WellFormed(d0, q0) && Tidy(d0, q0) && j <= |q0|
    requires Loaded(Finished(d0, q0[..j], now, NO_FAULTS), Some(q0), q)
    ensures j < |q0| ==> q == q0[j..]
    ensures j == |q0| ==> q == if Active in Finished(d0, q0[..j], now, NO_FAULTS) then [Cursor(Active, 0)] else []
  {
    var d := Finished(d0, q0[..j], now, NO_FAULTS);
    if j < |q0| {
      assert Recovered(d, q0) == q0[j..] by {
        UnfinishedRecovered(d0, q0, j, now);
      }
    } else {
      assert q0[..j] == q0;
      FinishedTidy(d0, q0, now);
      if Queued(q0, Active) {
        LastRecovered(d0, q0, now);
      } else {
        NotRecovered(d0, q0, j, now, j);
        DiscoveredTidy(d, q);
      }
    }
  }

  /** Finished files other than the active one are not recovered. */
  lemma NotRecovered(d0: Disk, q0: seq<Cursor>, j: nat, now: real, m: nat)
    requires WellFormed(d0, q0) && m <= j <= |q0|
    requires !Queued(q0[..m], Active)
    ensures Recovered(Finished(d0, q0[..j], now, NO_FAULTS), q0[..m]) == []
  {
    var d := Finished(d0, q0[..j], now, NO_FAULTS);
    forall i | 0 <= i < m ensures q0[..m][i].path !in d {
      assert q0[..m][i].path != Active;
      assert q0[..j][i] == q0[..m][i];
      FinishedAt(d0, q0[..j], now, NO_FAULTS, i);
    }
    RecoveredGone(d, q0[..m]);
  }

  /** An unfinished file is recovered with its old cursor. */
  lemma UnfinishedRecovered(d0: Disk, q0: seq<Cursor>, j: nat, now: real)
    requires WellFormed(d0, q0) && j < |q0|
    ensures Recovered(Finished(d0, q0[..j], now, NO_FAULTS), q0) == q0[j..]
  {
    var d := Finished(d0, q0[..j], now, NO_FAULTS);
    var rest := q0[j..];
    assert q0 == q0[..j] + rest;
    RecoveredConcat(d, q0[..j], rest);
    assert forall i :: 0 <= i < |rest| ==> rest[i].path in d && d[rest[i].path] == d0[rest[i].path] by {
      ReadToFiles(d0, q0, j, rest, now, NO_FAULTS);
    }
    assert forall i :: 0 <= i < |rest| ==> rest[i] == q0[j + i];
    RecoveredSame(d, rest);
    NotRecovered(d0, q0, j, now, j);
  }

  /** A finished active file is recovered empty, from its start. */
  lemma LastRecovered(d0: Disk, q0: seq<Cursor>, now: real)
    requires WellFormed(d0, q0) && Queued(q0, Active)
    ensures var d := Finished(d0, q0, now, NO_FAULTS);
      Active in d && Recovered(d, q0) == [Cursor(Active, 0)]
  {
    var d := Finished(d0, q0, now, NO_FAULTS);
    var n := |q0| - 1;
    assert q0[n].path == Active;
    FinishedAt(d0, q0, now, NO_FAULTS, n);
    assert q0[..|q0|] == q0;
    NotRecovered(d0, q0, |q0|, now, n);
    assert q0 == q0[..n] + [q0[n]];
    RecoveredConcat(d, q0[..n], [q0[n]]);
    assert [q0[n]][1..] == [];
  }

  lemma FinishedTidy(d0: Disk, q0: seq<Cursor>, now: real)
    requires WellFormed(d0, q0) && Tidy(d0, q0)
    ensures Finished(d0, q0, now, NO_FAULTS).Keys <= {Active}
  {
    TidyIff(d0, q0);
    FinishedKeys(d0, q0, now, NO_FAULTS);
    forall p | p in Finished(d0, q0, now, NO_FAULTS) && p != Active ensures false {
      var i :| 0 <= i < |q0| && q0[i].path == p;
      FinishedAt(d0, q0, now, NO_FAULTS, i);
    }
  }

  lemma RestOwed(d0: Disk, q0: seq<Cursor>, j: nat, now: real, q: seq<Cursor>)
    requires WellFormed(d0, q0) && Tidy(d0, q0) && j <= |q0|
    requires j < |q0| ==> q == q0[j..]
    requires j == |q0| ==> q == if Active in Finished(d0, q0[..j], now, NO_FAULTS) then [Cursor(Active, 0)] else []
    ensures var d := Finished(d0, q0[..j], now, NO_FAULTS);
      && WellFormed(d, q) && Tidy(d, q)
      && OwedText(d, q) == Unread(d0, q0[j..]) + Orphan(d0, q0)
      && NonBlank(Orphan(d, q)) <= NonBlank(Orphan(d0, q0))
  {
    var d := Finished(d0, q0[..j], now, NO_FAULTS);
    ReadToOrphan(d0, q0, j, q0[j..], now, NO_FAULTS);
    assert NonBlank([]) == 0;
    if j < |q0| {
      ReadToUnread(d0, q0, j, q, now, NO_FAULTS);
      FullUnread(d, q);
      FinishedTidyRest(d0, q0, j, q, now);
    } else {
      assert q0[..j] == q0 && q0[j..] == [];
      FinishedTidy(d0, q0, now);
      ActiveAlone(d, q);
      assert [] + Orphan(d0, q0) == Orphan(d0, q0);
    }
  }

  /** A queue of the active file alone, from its start. */
  lemma ActiveAlone(d: Disk, q: seq<Cursor>)
    requires d.Keys <= {Active} && q == if Active in d then [Cursor(Active, 0)] else []
    ensures WellFormed(d, q) && Tidy(d, q)
    ensures OwedText(d, q) == Orphan(d, []) && Orphan(d, q) == []
  {
    TidyIff(d, q);
    if Active in d {
      assert q[0].path == Active;
      UnreadSingle(d, q[0]);
    }
  }

  /** The finished files held no more than the batch. */
  lemma ReadCovers(d0: Disk, q0: seq<Cursor>, n: nat, batch: seq<Event>, j: nat, q1: seq<Cursor>)
    requires WellFormed(d0, q0) && ReadOut(d0, q0, n, batch, j, q1, NO_FAULTS)
    ensures |Events(Unread(d0, q0[..j]))| <= |batch| <= |Owed(d0, q0)|
  {
    var done, rest := Events(Unread(d0, q0[..j])), Events(Unread(d0, q0[j..]));
    assert Readable(q0, NO_FAULTS);
    assert |batch| + |Events(Unread(d0, q1))| == |done| + |rest| by {
      SplitUnread(d0, q0, j);
    }
    assert |Events(Unread(d0, q1))| <= |rest| by {
      RestCovers(d0, q0, j, q1);
    }
    assert |batch| <= |Owed(d0, q0)| by {
      FullUnread(d0, q0);
    }
  }

  lemma RestCovers(d0: Disk, q0: seq<Cursor>, j: nat, q1: seq<Cursor>)
    requires WellFormed(d0, q0) && ReadTo(d0, q0, j, q1)
    ensures |Events(Unread(d0, q1))| <= |Events(Unread(d0, q0[j..]))|
  {
    if j < |q0| {
      var q2 := q0[j..];
      assert q1 == [Cursor(q2[0].path, q1[0].off)] + q2[1..];
      AdvanceUnread(d0, q2, q1[0].off);
      EventsConcat(d0[q2[0].path].lines[q2[0].off..q1[0].off], Unread(d0, q1));
    }
  }

  // ---- Death after the files were changed, and before the state file was ----

  /** The cursors whose file is still there. */
  function Survivors(d: Disk, q: seq<Cursor>): seq<Cursor> {
    if q == [] then [] else (if q[0].path in d then [q[0]] else []) + Survivors(d, q[1..])
  }

  lemma {:induction false} SurvivorsConcat(d: Disk, a: seq<Cursor>, b: seq<Cursor>)
    ensures Survivors(d, a + b) == Survivors(d, a) + Survivors(d, b)
  {
    if a == [] {
      assert a + b == b;
    } else {
      SurvivorsConcat(d, a[1..], b);
      assert (a + b)[0] == a[0] && (a + b)[1..] == a[1..] + b;
      ConcatAssoc(if a[0].path in d then [a[0]] else [], Survivors(d, a[1..]), Survivors(d, b));
    }
  }

  /** They are what a new process recovers, if no file has become shorter. */
  lemma {:induction false} SurvivorsRecovered(d: Disk, q: seq<Cursor>)
    requires forall i :: 0 <= i < |q| && q[i].path in d ==> q[i].off <= |d[q[i].path].lines|
    ensures Recovered(d, q) == Survivors(d, q)
  {
    if q != [] {
      SurvivorsRecovered(d, q[1..]);
    }
  }

  lemma SurvivorsLast(d: Disk, front: seq<Cursor>, last: Cursor)
    ensures Survivors(d, front + [last]) == Survivors(d, front) + if last.path in d then [last] else []
  {
    SurvivorsConcat(d, front, [last]);
    assert [last][1..] == [];
  }

  lemma {:induction false} SubseqSurvivors(d0: Disk, d: Disk, a: seq<Cursor>, q: seq<Cursor>)
    requires WellFormed(d0, q) && IsSubseq(a, q)
    requires forall i :: 0 <= i < |q| ==> (q[i].path in d <==> q[i].path in Paths(a))
    ensures a == Survivors(d, q)
    decreases |q|
  {
    if q != [] {
      var rest := q[1..];
      assert WellFormed(d0, rest) by {
        assert forall i :: 0 <= i < |rest| ==> rest[i] == q[i + 1];
      }
      if a != [] && a[0] == q[0] && IsSubseq(a[1..], rest) {
        PathsCons(a);
        assert q[0].path in d;
        SubseqSurvivors(d0, d, a[1..], rest);
      } else {
        assert IsSubseq(a, rest);
        SubqueueWellFormed(d0, a, rest);
        forall i | 0 <= i < |a| ensures a[i].path != q[0].path {
          assert a[i] in rest;
        }
        SubseqSurvivors(d0, d, a, rest);
      }
    }
  }

  lemma PathsCons(q: seq<Cursor>)
    requires q != []
    ensures Paths(q) == {q[0].path} + Paths(q[1..])
  {
    assert forall i :: 0 <= i < |q| ==> q[i] == if i == 0 then q[0] else q[1..][i - 1];
    forall i | 0 <= i < |q[1..]| ensures q[1..][i].path in Paths(q) {
      assert q[i + 1] == q[1..][i];
    }
  }

  /** Retention without faults leaves exactly the cursors whose file is still there. */
  lemma PrunedSurvivors(s1: Snapshot, s: Snapshot)
    requires WellFormed(s1.disk, s1.queue) && Pruned(s1, s, NO_FAULTS)
    ensures s.queue == Survivors(s.disk, s1.queue)
  {
    SubseqSurvivors(s1.disk, s.disk, s.queue, s1.queue);
  }

  /** What a new process makes of the directory `d` when the queue was `mid` plus `tail`, and `saved` leads to `mid` alone. */
  lemma ReloadSurvivors(d: Disk, mid: seq<Cursor>, tail: seq<Cursor>, q: seq<Cursor>)
    requires Tidy(d, mid + tail) && if mid != [] then q == mid else Discovered(d, q)
    requires tail == if Active in d && !Queued(mid, Active) then [Cursor(Active, 0)] else []
    ensures FullQueue(d, q) == FullQueue(d, mid + tail) == mid + tail
    ensures Tidy(d, q)
  {
    TidyIff(d, mid + tail);
    TidyIff(d, q);
    if mid == [] {
      assert mid + tail == tail;
      assert d.Keys <= {Active};
      DiscoveredTidy(d, q);
    } else {
      assert tail != [] ==> (mid + tail)[|mid|].path == Active;
      assert Paths(mid + tail) <= Paths(mid) + {Active};
    }
    if Active in d {
      FullHasActive(d, mid, tail);
    }
  }

  lemma FullHasActive(d: Disk, mid: seq<Cursor>, tail: seq<Cursor>)
    requires Active in d && tail == if !Queued(mid, Active) then [Cursor(Active, 0)] else []
    ensures FullQueue(d, mid) == FullQueue(d, mid + tail) == mid + tail
  {
    if Queued(mid, Active) {
      assert mid + tail == mid;
    } else {
      assert (mid + tail)[|mid|].path == Active;
    }
  }

  /** Death at any point between the append and the state write of a `put` that did not rotate: the reload owes what the
      process owed then. */
  lemma ReloadInPut(s0: Snapshot, s1: Snapshot, s: Snapshot, ev: Event, now: real, q: seq<Cursor>)
    requires WellFormed(s0.disk, s0.queue) && Aligned(s0.disk, s0.queue) && Tidy(s0.disk, s0.queue)
    requires Appended(s0, s1, ev, now, NO_FAULTS) && Pruned(s1, s, NO_FAULTS)
    requires Loaded(s.disk, Some(s0.queue), q)
    ensures WellFormed(s.disk, q) && Tidy(s.disk, q)
    ensures FullQueue(s.disk, q) == FullQueue(s.disk, s.queue)
  {
    var q0, d := s0.queue, s.disk;
    var more := if Queued(q0, Active) then [] else [Cursor(Active, 0)];
    var mid, tail := Survivors(d, q0), Survivors(d, more);
    QueueInPut(s0, s1, s, ev, now, more);
    assert Recovered(d, q0) == mid by {
      OldCursors(s0, s1, s, ev, now);
      SurvivorsRecovered(d, q0);
    }
    assert tail == if Active in d && !Queued(mid, Active) then [Cursor(Active, 0)] else [] by {
      SurvivorsQueued(d, q0, Active);
      assert more != [] ==> more[1..] == [];
    }
    ReloadSurvivors(d, mid, tail, q);
    RecoveredWellFormed(d, q0);
  }

  /** The queue in memory after the append and part of the pruning. */
  lemma QueueInPut(s0: Snapshot, s1: Snapshot, s: Snapshot, ev: Event, now: real, more: seq<Cursor>)
    requires WellFormed(s0.disk, s0.queue) && Aligned(s0.disk, s0.queue) && Tidy(s0.disk, s0.queue)
    requires Appended(s0, s1, ev, now, NO_FAULTS) && Pruned(s1, s, NO_FAULTS)
    requires more == if Queued(s0.queue, Active) then [] else [Cursor(Active, 0)]
    ensures s.queue == Survivors(s.disk, s0.queue) + Survivors(s.disk, more)
    ensures Tidy(s.disk, s.queue)
  {
    AppendTidy(s0, s1, ev, now);
    PrunedTidy(s1, s, NO_FAULTS);
    AppendPhase(s0, s1, ev, now, NO_FAULTS);
    assert s1.queue == s0.queue + more;
    PrunedSurvivors(s1, s);
    SurvivorsConcat(s.disk, s0.queue, more);
  }

  lemma {:induction false} SurvivorsQueued(d: Disk, q: seq<Cursor>, p: Path)
    ensures Queued(Survivors(d, q), p) <==> Queued(q, p) && p in d
  {
    if q != [] {
      var head, rest := [q[0]], q[1..];
      SurvivorsQueued(d, rest, p);
      assert q == head + rest;
      QueuedConcat(head, rest, p);
      QueuedConcat(if q[0].path in d then head else [], Survivors(d, rest), p);
      assert Queued(head, p) <==> q[0].path == p by {
        assert head[0] == q[0];
      }
    }
  }

  /** The old cursors still lie inside their files. */
  lemma OldCursors(s0: Snapshot, s1: Snapshot, s: Snapshot, ev: Event, now: real)
    requires WellFormed(s0.disk, s0.queue) && Appended(s0, s1, ev, now, NO_FAULTS) && Pruned(s1, s, NO_FAULTS)
    ensures forall i :: 0 <= i < |s0.queue| && s0.queue[i].path in s.disk ==>
      s0.queue[i].off <= |s.disk[s0.queue[i].path].lines|
  {
  }

  /** What is owed after a death between the rename of a rotation and the state write. As long as the rotated file is
      queued and not dropped, the new process knows nothing of it: with other files queued it is stranded, and without it is
      found again from its first line. */
  ghost predicate RotationReloaded(s: Snapshot, target: Path, q: seq<Cursor>) {
    if s.queue != [] && s.queue[|s.queue| - 1].path == target && target in s.disk then
      var front, last := s.queue[..|s.queue| - 1], s.queue[|s.queue| - 1];
      var lines := s.disk[target].lines;
      && last.off <= |lines|
      && Owed(s.disk, q) == (if front != [] then Events(Unread(s.disk, front)) else Events(lines))
      && (Owed(s.disk, q) == Due(s) <==> (if front != [] then Events(lines[last.off..]) else Events(lines[..last.off])) == [])
    else
      Owed(s.disk, q) == Due(s)
  }

  lemma ReloadAfterRotation(limits: Limits, s0: Snapshot, s1: Snapshot, s2: Snapshot, s: Snapshot, target: Path, ev: Event,
                            now: real, q: seq<Cursor>)
    requires WellFormed(s0.disk, s0.queue) && Aligned(s0.disk, s0.queue) && Tidy(s0.disk, s0.queue)
    requires Appended(s0, s1, ev, now, NO_FAULTS) && RotatedTo(limits, s1, s2, Some(target), NO_FAULTS)
    requires Pruned(s2, s, NO_FAULTS) && Loaded(s.disk, Some(s0.queue), q)
    ensures RotationReloaded(s, target, q)
  {
    var d := s.disk;
    var front, last := AppendedParts(s0.disk, s0.queue);
    var moved, known := Cursor(target, last.off), Survivors(d, front);
    RotatedQueue(limits, s0, s1, s2, s, target, ev, now, front, last);
    assert Active !in d;
    FrontRecovered(s0, s, front, last);
    if target in d {
      RotatedStays(s, known, moved, q);
    } else {
      RotatedGone(s, known, q);
    }
  }

  /** The queue in memory after the rotation and part of the pruning. */
  lemma RotatedQueue(limits: Limits, s0: Snapshot, s1: Snapshot, s2: Snapshot, s: Snapshot, target: Path, ev: Event,
                     now: real, front: seq<Cursor>, last: Cursor)
    requires WellFormed(s0.disk, s0.queue) && Aligned(s0.disk, s0.queue) && Tidy(s0.disk, s0.queue)
    requires Appended(s0, s1, ev, now, NO_FAULTS) && RotatedTo(limits, s1, s2, Some(target), NO_FAULTS)
    requires Pruned(s2, s, NO_FAULTS) && AppendedQueue(s0.queue) == front + [last] && last.path == Active
    requires forall i :: 0 <= i < |front| ==> front[i].path != Active
    ensures s.queue == Survivors(s.disk, front) + if target in s.disk then [Cursor(target, last.off)] else []
    ensures Tidy(s.disk, s.queue)
    ensures target in s.disk ==> last.off <= |s.disk[target].lines|
  {
    AppendTidy(s0, s1, ev, now);
    RotateTidy(limits, s1, s2, Some(target));
    PrunedTidy(s2, s, NO_FAULTS);
    assert WellFormed(s2.disk, s2.queue) by {
      AppendPhase(s0, s1, ev, now, NO_FAULTS);
      RotatePhase(limits, s1, s2, Some(target), NO_FAULTS);
    }
    RenamedLast(front, last, target);
    RotatedSurvivors(s2, s, front, Cursor(target, last.off));
  }

  lemma RotatedSurvivors(s2: Snapshot, s: Snapshot, front: seq<Cursor>, moved: Cursor)
    requires WellFormed(s2.disk, s2.queue) && Pruned(s2, s, NO_FAULTS) && s2.queue == front + [moved]
    ensures s.queue == Survivors(s.disk, front) + if moved.path in s.disk then [moved] else []
    ensures moved.path in s.disk ==> moved.off <= |s.disk[moved.path].lines|
  {
    PrunedSurvivors(s2, s);
    SurvivorsLast(s.disk, front, moved);
    assert s2.queue[|front|] == moved;
  }

  lemma RenamedLast(front: seq<Cursor>, last: Cursor, target: Path)
    requires last.path == Active && forall i :: 0 <= i < |front| ==> front[i].path != Active
    ensures Renamed(front + [last], target) == front + [Cursor(target, last.off)]
  {
  }

  lemma FrontRecovered(s0: Snapshot, s: Snapshot, front: seq<Cursor>, last: Cursor)
    requires WellFormed(s0.disk, s0.queue) && AppendedQueue(s0.queue) == front + [last] && last.path == Active
    requires Active !in s.disk && SegmentsKept(s0.disk, s.disk)
    ensures Recovered(s.disk, s0.queue) == Survivors(s.disk, front)
  {
    SurvivorsRecovered(s.disk, s0.queue);
    if Queued(s0.queue, Active) {
      assert s0.queue == front + [last];
      SurvivorsLast(s.disk, front, last);
      assert Survivors(s.disk, front) + [] == Survivors(s.disk, front);
    } else {
      assert s0.queue == (s0.queue + [Cursor(Active, 0)])[..|front|] == front;
    }
  }

  lemma RotatedStays(s: Snapshot, known: seq<Cursor>, moved: Cursor, q: seq<Cursor>)
    requires s.queue == known + [moved] && moved.path in s.disk && Active !in s.disk && Tidy(s.disk, s.queue)
    requires moved.off <= |s.disk[moved.path].lines|
    requires if known != [] then q == known else Discovered(s.disk, q)
    ensures RotationReloaded(s, moved.path, q)
  {
    var d := s.disk;
    var lines := d[moved.path].lines;
    NothingOrphaned(d, s.queue);
    LastUnread(d, known, moved);
    assert s.queue[..|s.queue| - 1] == known && s.queue[|s.queue| - 1] == moved;
    if known != [] {
      NothingOrphaned(d, known);
      SurplusNone(Events(Unread(d, known)), Events(lines[moved.off..]));
    } else {
      LoneFile(d, moved, s.queue, q);
      SplitLines(lines, moved.off);
      FrontNone(Events(lines[..moved.off]), Events(lines[moved.off..]));
    }
  }

  lemma FrontNone<T>(a: seq<T>, b: seq<T>)
    ensures a + b == b <==> a == []
  {
    if a + b == b {
      assert |a| == 0;
    } else {
      assert a == [] ==> a + b == b;
    }
  }

  lemma NothingOrphaned(d: Disk, q: seq<Cursor>)
    requires Active !in d
    ensures Owed(d, q) == Events(Unread(d, q))
  {
  }

  /** The only file left is the rotated one, found again from its start. */
  lemma LoneFile(d: Disk, moved: Cursor, all: seq<Cursor>, q: seq<Cursor>)
    requires all == [moved] && Tidy(d, all) && moved.path in d && Active !in d && Discovered(d, q)
    ensures Owed(d, q) == Events(d[moved.path].lines) && Events(Unread(d, [])) == []
  {
    TidyIff(d, all);
    assert d.Keys == {moved.path} by {
      assert Paths(all) == {moved.path};
    }
    PathsCount(d, q);
    assert q[0].path in Paths(q);
    assert q == [Cursor(moved.path, 0)];
    UnreadSingle(d, q[0]);
  }

  lemma RotatedGone(s: Snapshot, known: seq<Cursor>, q: seq<Cursor>)
    requires s.queue == known + [] && Active !in s.disk && Tidy(s.disk, s.queue)
    requires if known != [] then q == known else Discovered(s.disk, q)
    ensures Owed(s.disk, q) == Due(s)
  {
    assert s.queue == known;
    if known == [] {
      DiscoveredTidy(s.disk, q);
    }
  }

  /** A death after the rename of a file with the event "b", which the state file does not know: it is stranded. */
  lemma StrandedExample(q: seq<Cursor>)
    requires var d := map[Rotated(0, 0) := File([Record("a")], 0.0), Rotated(1, 0) := File([Record("b")], 0.0)];
      Loaded(d, Some([Cursor(Rotated(0, 0), 0)]), q)
    ensures var d := map[Rotated(0, 0) := File([Record("a")], 0.0), Rotated(1, 0) := File([Record("b")], 0.0)];
      && Owed(d, [Cursor(Rotated(0, 0), 0), Cursor(Rotated(1, 0), 0)]) == ["a", "b"]
      && Owed(d, q) == ["a"]
  {
    var d := map[Rotated(0, 0) := File([Record("a")], 0.0), Rotated(1, 0) := File([Record("b")], 0.0)];
    var front, last := [Cursor(Rotated(0, 0), 0)], Cursor(Rotated(1, 0), 0);
    RecoveredSame(d, front);
    assert front + [last] == [Cursor(Rotated(0, 0), 0), Cursor(Rotated(1, 0), 0)];
    assert [Record("a")][1..] == [] && [Record("b")][1..] == [];
    UnreadSingle(d, front[0]);
    LastUnread(d, front, last);
    NothingOrphaned(d, front);
    NothingOrphaned(d, front + [last]);
  }

  /** A death after the rename of the only file, one of its two events delivered: both are owed again. */
  lemma RepeatedExample(q: seq<Cursor>)
    requires var d := map[Rotated(0, 0) := File([Record("a"), Record("b")], 0.0)];
      Loaded(d, Some([Cursor(Active, 1)]), q)
    ensures var d := map[Rotated(0, 0) := File([Record("a"), Record("b")], 0.0)];
      Owed(d, [Cursor(Rotated(0, 0), 1)]) == ["b"] && Owed(d, q) == ["a", "b"]
  {
    var d := map[Rotated(0, 0) := File([Record("a"), Record("b")], 0.0)];
    var moved := Cursor(Rotated(0, 0), 1);
    assert Recovered(d, [Cursor(Active, 1)]) == [];
    assert Paths([moved]) == {Rotated(0, 0)} by {
      assert [moved][0].path == Rotated(0, 0);
    }
    TidyIff(d, [moved]);
    LoneFile(d, moved, [moved], q);
    assert [Record("a"), Record("b")][1..] == [Record("b")] && [Record("b")][1..] == [];
    UnreadSingle(d, moved);
    NothingOrphaned(d, [moved]);
  }

  /** A file with one event that was dropped but could not be removed is owed again after a restart with an empty queue. */
  lemma LeftoverExample(q: seq<Cursor>)
    requires Loaded(map[Rotated(0, 0) := File([Record("a")], 0.0)], Some([]), q)
    ensures var d := map[Rotated(0, 0) := File([Record("a")], 0.0)];
      Owed(d, []) == [] && Owed(d, q) == ["a"]
  {
    var d := map[Rotated(0, 0) := File([Record("a")], 0.0)];
    var c := Cursor(Rotated(0, 0), 0);
    assert Paths([c]) == {Rotated(0, 0)} by {
      assert [c][0].path == Rotated(0, 0);
    }
    TidyIff(d, [c]);
    LoneFile(d, c, [c], q);
    assert [Record("a")][1..] == [];
    NothingOrphaned(d, []);
  }

  // ---- Death inside `restore` ----

  /** Death inside `restore`, whatever lines it has written, and wherever its pruning stands: unless another queued file is
      left, the reload owes what the process would owe; else the new file is not found, and everything behind it is owed. */
  lemma ReloadInRestore(s0: Snapshot, s1: Snapshot, s: Snapshot, path: Path, file: File, q: seq<Cursor>)
    requires WellFormed(s0.disk, s0.queue) && Tidy(s0.disk, s0.queue) && path.Restored? && path !in s0.disk
    requires s1.disk == s0.disk[path := file] && s1.queue == [Cursor(path, 0)] + s0.queue && Pruned(s1, s, NO_FAULTS)
    requires Loaded(s.disk, Some(s0.queue), q)
    ensures WellFormed(s.disk, q)
    ensures var known := Survivors(s.disk, s0.queue);
      && Due(s) == (if path in s.disk then Events(file.lines) else []) + Owed(s.disk, known)
      && Owed(s.disk, q) == (if known == [] then Due(s) else Owed(s.disk, known))
      && (known == [] || path !in s.disk ==> Tidy(s.disk, q))
  {
    var d, c := s.disk, Cursor(path, 0);
    var known := Survivors(d, s0.queue);
    RestoredQueue(s0, s1, s, path, file);
    assert Recovered(d, s0.queue) == known by {
      SurvivorsRecovered(d, s0.queue);
    }
    RecoveredWellFormed(d, s0.queue);
    RestoredOwed(s, c, known, q);
  }

  lemma RestoredOwed(s: Snapshot, c: Cursor, known: seq<Cursor>, q: seq<Cursor>)
    requires s.queue == (if c.path in s.disk then [c] else []) + known && Tidy(s.disk, s.queue)
    requires c.path.Restored? && c.off == 0
    requires if known != [] then q == known else Discovered(s.disk, q)
    ensures var all := Owed(s.disk, known);
      && Due(s) == (if c.path in s.disk then Events(s.disk[c.path].lines) else []) + all
      && Owed(s.disk, q) == (if known == [] then Due(s) else all)
      && (known == [] || c.path !in s.disk ==> Tidy(s.disk, q))
  {
    var d := s.disk;
    if c.path in d {
      BehindFront(d, c, known);
      if known == [] {
        assert [c] + known == [c];
        OnlyRestored(d, c, q);
      }
    } else {
      assert [] + known == known && [] + Owed(d, known) == Owed(d, known);
      if known == [] {
        OnlyActive(d, q);
      }
    }
  }

  /** The queue in memory then. */
  lemma RestoredQueue(s0: Snapshot, s1: Snapshot, s: Snapshot, path: Path, file: File)
    requires WellFormed(s0.disk, s0.queue) && Tidy(s0.disk, s0.queue) && path.Restored? && path !in s0.disk
    requires s1.disk == s0.disk[path := file] && s1.queue == [Cursor(path, 0)] + s0.queue && Pruned(s1, s, NO_FAULTS)
    ensures s.queue == (if path in s.disk then [Cursor(path, 0)] else []) + Survivors(s.disk, s0.queue)
    ensures Tidy(s.disk, s.queue) && (path in s.disk ==> s.disk[path] == file)
    ensures forall i :: 0 <= i < |s0.queue| && s0.queue[i].path in s.disk ==>
      s0.queue[i].off <= |s.disk[s0.queue[i].path].lines|
  {
    var c := Cursor(path, 0);
    RestoredBefore(s0, s1, path, file);
    PrunedSurvivors(s1, s);
    SurvivorsConcat(s.disk, [c], s0.queue);
    assert [c][1..] == [];
    PrunedTidy(s1, s, NO_FAULTS);
  }

  lemma RestoredBefore(s0: Snapshot, s1: Snapshot, path: Path, file: File)
    requires WellFormed(s0.disk, s0.queue) && Tidy(s0.disk, s0.queue) && path.Restored? && path !in s0.disk
    requires s1.disk == s0.disk[path := file] && s1.queue == [Cursor(path, 0)] + s0.queue
    ensures WellFormed(s1.disk, s1.queue) && Tidy(s1.disk, s1.queue)
  {
    assert !Queued(s0.queue, path);
    WellFormedCons(s1.disk, Cursor(path, 0), s0.queue);
    TidyIff(s0.disk, s0.queue);
    TidyIff(s1.disk, s1.queue);
    PathsCons(s1.queue);
    assert s1.queue[1..] == s0.queue;
  }

  lemma BehindFront(d: Disk, c: Cursor, known: seq<Cursor>)
    requires c.path != Active && c.path in d && c.off == 0
    ensures Owed(d, [c] + known) == Events(d[c.path].lines) + Owed(d, known)
  {
    QueuedCons(c, known);
    FullUnread(d, [c] + known);
    FullUnread(d, known);
    UnreadCons(d, c, known);
    assert Rest(d, c) == d[c.path].lines;
    EventsConcat(d[c.path].lines, Unread(d, known));
    ConcatAssoc(Events(d[c.path].lines), Events(Unread(d, known)), Events(Orphan(d, known)));
  }

  /** Discovery finds the restored file and an active one. */
  lemma OnlyRestored(d: Disk, c: Cursor, q: seq<Cursor>)
    requires c.path in d && c.path.Restored? && c.off == 0 && Tidy(d, [c]) && Discovered(d, q)
    ensures Owed(d, q) == Owed(d, [c]) && Tidy(d, q)
  {
    TidyIff(d, q);
    FrontRestored(d, c, q);
    DiscoveredText(d, q);
    FullUnread(d, [c]);
    assert [c][0] == c;
    assert Orphan(d, [c]) == Orphan(d, []);
  }

  lemma FrontRestored(d: Disk, c: Cursor, q: seq<Cursor>)
    requires c.path in d && c.path.Restored? && c.off == 0 && Tidy(d, [c]) && Discovered(d, q)
    ensures FrontOf(q) == [c]
  {
    assert d.Keys <= {c.path, Active} by {
      TidyIff(d, [c]);
      assert [c][0].path == c.path;
    }
    forall i | 0 <= i < |FrontOf(q)| ensures FrontOf(q)[i] == c {
      FrontElement(d, c, q, i);
    }
    FrontLength(d, c, q);
    assert FrontOf(q)[0] == c;
  }

  lemma FrontElement(d: Disk, c: Cursor, q: seq<Cursor>, i: nat)
    requires Discovered(d, q) && d.Keys <= {c.path, Active} && c.off == 0 && i < |FrontOf(q)|
    ensures FrontOf(q)[i] == c
  {
    DiscoveredFront(d, q);
    assert FrontOf(q)[i] == q[i];
  }

  lemma FrontLength(d: Disk, c: Cursor, q: seq<Cursor>)
    requires Discovered(d, q) && c.path in d && c.path != Active
    requires forall i :: 0 <= i < |FrontOf(q)| ==> FrontOf(q)[i] == c
    ensures |FrontOf(q)| == 1
  {
    assert Queued(FrontOf(q), c.path) by {
      DiscoveredFront(d, q);
    }
    FrontDistinct(d, q);
  }

  lemma FrontDistinct(d: Disk, q: seq<Cursor>)
    requires Discovered(d, q)
    ensures |FrontOf(q)| > 1 ==> FrontOf(q)[0].path != FrontOf(q)[1].path
  {
    assert |FrontOf(q)| > 1 ==> FrontOf(q)[0] == q[0] && FrontOf(q)[1] == q[1];
  }

  lemma OnlyActive(d: Disk, q: seq<Cursor>)
    requires Tidy(d, []) && Discovered(d, q)
    ensures Owed(d, q) == Owed(d, []) && Tidy(d, q)
  {
    DiscoveredTidy(d, q);
    ActiveAlone(d, q);
    FullUnread(d, []);
    assert [] + Orphan(d, []) == Orphan(d, []);
  }

  lemma SurplusNone<T>(a: seq<T>, b: seq<T>)
    ensures a == a + b <==> b == []
  {
  }
}
