/** How a read of the front moves through the cursor queue. */
module BufferReading {
  import opened Sequences
  import opened BufferDisk

  /** `q` is what is left of `q0` once its first `j` files are finished and the next one is partly read. */
  ghost predicate ReadTo(d0: Disk, q0: seq<Cursor>, j: nat, q: seq<Cursor>) {
    && j <= |q0|
    && |q| == |q0| - j
    && (forall i :: 0 < i < |q| ==> q[i] == q0[j + i])
    && (j < |q0| ==>
      && q[0].path == q0[j].path
      && q[0].path in d0
      && q0[j].off <= q[0].off <= |d0[q[0].path].lines|)
  }

  /** The disk once the files of `gone` are finished: an unopenable or a stuck file stays as it is,
      the active file is emptied, any other is deleted. */
  ghost function Finished(d0: Disk, gone: seq<Cursor>, now: real, io: Faults): Disk {
    if gone == [] then d0
    else
      FinishedOne(Finished(d0, gone[..|gone| - 1], now, io), gone[|gone| - 1].path, now, io)
  }

  function FinishedOne(d: Disk, p: Path, now: real, io: Faults): Disk {
    if p in io.lost || p in io.stuck then d
    else if p == Active then d[Active := File([], now)]
    else d - {p}
  }

  lemma {:induction false} FinishedFrame(d0: Disk, gone: seq<Cursor>, now: real, io: Faults, p: Path)
    requires !Queued(gone, p)
    ensures p in Finished(d0, gone, now, io) <==> p in d0
    ensures p in d0 ==> Finished(d0, gone, now, io)[p] == d0[p]
  {
    if gone != [] {
      var n := |gone| - 1;
      assert gone[n].path != p;
      assert forall i :: 0 <= i < n ==> gone[..n][i] == gone[i];
      FinishedFrame(d0, gone[..n], now, io, p);
    }
  }

  /** A finished file is gone, or empty if it was the active one, unless it could not be opened or changed. */
  lemma {:induction false} FinishedAt(d0: Disk, gone: seq<Cursor>, now: real, io: Faults, i: nat)
    requires i < |gone|
    requires gone[i].path !in io.lost && gone[i].path !in io.stuck
    ensures var d := Finished(d0, gone, now, io);
      if gone[i].path == Active then Active in d && d[Active].lines == [] else gone[i].path !in d
  {
    var n := |gone| - 1;
    if i < n {
      FinishedAt(d0, gone[..n], now, io, i);
    }
  }

  /** Files that cannot be changed are left as they were. */
  lemma {:induction false} FinishedStuck(d0: Disk, gone: seq<Cursor>, now: real, io: Faults, p: Path)
    requires p in io.lost || p in io.stuck
    ensures p in Finished(d0, gone, now, io) <==> p in d0
    ensures p in d0 ==> Finished(d0, gone, now, io)[p] == d0[p]
  {
    if gone != [] {
      FinishedStuck(d0, gone[..|gone| - 1], now, io, p);
    }
  }

  lemma {:induction false} FinishedActive(d0: Disk, gone: seq<Cursor>, now: real, io: Faults)
    ensures var lines := ActiveLines(Finished(d0, gone, now, io)); lines == ActiveLines(d0) || lines == []
  {
    if gone != [] {
      FinishedActive(d0, gone[..|gone| - 1], now, io);
    }
  }

  /** Nothing appears on the disk but an emptied active file. */
  lemma {:induction false} FinishedKeys(d0: Disk, gone: seq<Cursor>, now: real, io: Faults)
    requires forall i :: 0 <= i < |gone| ==> gone[i].path in d0
    ensures Finished(d0, gone, now, io).Keys <= d0.Keys
    ensures forall p :: p in Finished(d0, gone, now, io) && p != Active ==> Finished(d0, gone, now, io)[p] == d0[p]
  {
    if gone != [] {
      FinishedKeys(d0, gone[..|gone| - 1], now, io);
    }
  }

  /** Reading one more stretch of the front file. */
  lemma AdvanceUnread(d: Disk, q: seq<Cursor>, to: nat)
    requires q != [] && q[0].path in d && q[0].off <= to <= |d[q[0].path].lines|
    ensures
      var part := d[q[0].path].lines[q[0].off..to];
      Unread(d, q) == part + Unread(d, [Cursor(q[0].path, to)] + q[1..])
  {
    var c := Cursor(q[0].path, to);
    var part := d[q[0].path].lines[q[0].off..to];
    var lines, off := d[c.path].lines, q[0].off;
    assert lines[off..] == part + lines[to..];
    UnreadConcat(d, [c], q[1..]);
    UnreadSingle(d, c);
    ConcatAssoc(part, lines[to..], Unread(d, q[1..]));
  }

  /** A file read to its end owes nothing. */
  lemma PopUnread(d: Disk, q: seq<Cursor>)
    requires q != []
    requires q[0].path in d && q[0].off == |d[q[0].path].lines|
    ensures Unread(d, q) == Unread(d, q[1..])
  {
  }

  /** What is left to read lies in files the read has not touched. */
  lemma ReadToFiles(d0: Disk, q0: seq<Cursor>, j: nat, q: seq<Cursor>, now: real, io: Faults)
    requires WellFormed(d0, q0) && ReadTo(d0, q0, j, q)
    ensures var d := Finished(d0, q0[..j], now, io);
      forall i :: 0 <= i < |q| ==> q[i].path in d && q[i].path in d0 && d[q[i].path] == d0[q[i].path]
  {
    forall i | 0 <= i < |q|
      ensures var d := Finished(d0, q0[..j], now, io);
        q[i].path in d && q[i].path in d0 && d[q[i].path] == d0[q[i].path]
    {
      assert q[i].path == q0[j + i].path;
      FinishedFrame(d0, q0[..j], now, io, q[i].path);
    }
  }

  lemma ReadToWellFormed(d0: Disk, q0: seq<Cursor>, j: nat, q: seq<Cursor>)
    requires WellFormed(d0, q0) && ReadTo(d0, q0, j, q)
    ensures WellFormed(d0, q)
  {
    forall i, k | 0 <= i < k < |q| ensures q[i].path != q[k].path {
      assert q[i].path == q0[j + i].path && q[k].path == q0[j + k].path;
    }
    forall i | 0 <= i < |q| - 1 ensures q[i].path != Active {
      assert q[i].path == q0[j + i].path;
    }
  }

  lemma ReadToUnread(d0: Disk, q0: seq<Cursor>, j: nat, q: seq<Cursor>, now: real, io: Faults)
    requires WellFormed(d0, q0) && ReadTo(d0, q0, j, q)
    ensures
      var d := Finished(d0, q0[..j], now, io);
      && WellFormed(d, q)
      && Unread(d, q) == Unread(d0, q)
  {
    ReadToFiles(d0, q0, j, q, now, io);
    ReadToWellFormed(d0, q0, j, q);
    UnreadFrame(Finished(d0, q0[..j], now, io), d0, q);
  }

  /** What is left is aligned with the disk the read leaves. */
  lemma ReadToAligned(d0: Disk, q0: seq<Cursor>, j: nat, q: seq<Cursor>, now: real, io: Faults)
    requires WellFormed(d0, q0) && ReadTo(d0, q0, j, q) && Aligned(d0, q)
    ensures Aligned(Finished(d0, q0[..j], now, io), q)
  {
    ReadToFiles(d0, q0, j, q, now, io);
  }

  /** The active file after a read: still queued, or never queued and untouched, or finished. */
  lemma ReadToOrphan(d0: Disk, q0: seq<Cursor>, j: nat, q: seq<Cursor>, now: real, io: Faults)
    requires WellFormed(d0, q0) && ReadTo(d0, q0, j, q)
    ensures
      var d := Finished(d0, q0[..j], now, io);
      Orphan(d, q) ==
        if Queued(q0, Active) then
          (if j == |q0| && Active in io.lost + io.stuck then d0[Active].lines else [])
        else Orphan(d0, q0)
  {
    var d := Finished(d0, q0[..j], now, io);
    if Queued(q0, Active) {
      var n := |q0| - 1;
      assert q0[n].path == Active;
      if j == |q0| {
        assert q == [];
        if Active in io.lost + io.stuck {
          FinishedStuck(d0, q0[..j], now, io, Active);
        } else {
          FinishedAt(d0, q0[..j], now, io, n);
        }
      } else {
        assert q[|q| - 1].path == q0[n].path;
      }
    } else {
      forall i | 0 <= i < |q| ensures q[i].path != Active {
        assert q[i].path == q0[j + i].path;
      }
      assert !Queued(q0[..j], Active);
      FinishedFrame(d0, q0[..j], now, io, Active);
    }
  }

  /** No queued file raises when it is opened. */
  ghost predicate Readable(q: seq<Cursor>, io: Faults) {
    forall i :: 0 <= i < |q| ==> q[i].path !in io.lost
  }

  /** What one call of `_read_front` achieves, from (d0, q0): it returns `batch` and leaves the queue `q`. */
  ghost predicate ReadOut(d0: Disk, q0: seq<Cursor>, n: nat, batch: seq<Event>, j: nat, q: seq<Cursor>, io: Faults) {
    && ReadTo(d0, q0, j, q)
    && |batch| <= n
    && (q == [] && q0 != [] ==> |batch| < n)
    && (|batch| < n ==> q == [])
    && IsSubseq(batch + Events(Unread(d0, q)), Events(Unread(d0, q0)))
    && (Readable(q0, io) ==> batch + Events(Unread(d0, q)) == Events(Unread(d0, q0)))
    && batch + Events(Unread(d0, q)) == Events(Unread(d0, Openable(q0[..j], io.lost) + q0[j..]))
    && (q != [] && q[0].path in io.lost ==> q[0] == q0[j])
    && NonBlank(Unread(d0, q)) + |batch| <= NonBlank(Unread(d0, q0))
    && Aligned(d0, q)
  }

  /** The cursors whose files can be opened. */
  function Openable(q: seq<Cursor>, lost: set<Path>): seq<Cursor> {
    if q == [] then []
    else Openable(q[..|q| - 1], lost) + if q[|q| - 1].path in lost then [] else [q[|q| - 1]]
  }

  lemma OpenableNext(q: seq<Cursor>, j: nat, lost: set<Path>)
    requires j < |q|
    ensures Openable(q[..j + 1], lost) == Openable(q[..j], lost) + if q[j].path in lost then [] else [q[j]]
  {
    assert q[..j + 1][..j] == q[..j];
  }

  lemma {:induction false} OpenableAll(q: seq<Cursor>, lost: set<Path>)
    requires forall i :: 0 <= i < |q| ==> q[i].path !in lost
    ensures Openable(q, lost) == q
  {
    if q != [] {
      OpenableAll(q[..|q| - 1], lost);
    }
  }

  /** Files that cannot be opened only take events away. */
  lemma {:induction false} OpenableSubseq(d: Disk, q: seq<Cursor>, lost: set<Path>)
    ensures IsSubseq(Events(Unread(d, Openable(q, lost))), Events(Unread(d, q)))
  {
    if q == [] {
      SubseqRefl(Events(Unread(d, q)));
    } else {
      var before, last := q[..|q| - 1], q[|q| - 1];
      OpenableSubseq(d, before, lost);
      assert q == before + [last];
      OneMoreOpenable(d, Openable(before, lost), before, last, last.path !in lost);
    }
  }

  lemma OneMoreOpenable(d: Disk, a: seq<Cursor>, q: seq<Cursor>, c: Cursor, opens: bool)
    requires IsSubseq(Events(Unread(d, a)), Events(Unread(d, q)))
    ensures IsSubseq(Events(Unread(d, a + if opens then [c] else [])), Events(Unread(d, q + [c])))
  {
    var e := Events(Rest(d, c));
    LastUnread(d, q, c);
    if opens {
      LastUnread(d, a, c);
      SubseqRefl(e);
      SubseqConcat(Events(Unread(d, a)), Events(Unread(d, q)), e, e);
    } else {
      assert a + [] == a && Events(Unread(d, a)) + [] == Events(Unread(d, a));
      assert IsSubseq([], e);
      SubseqConcat(Events(Unread(d, a)), Events(Unread(d, q)), [], e);
    }
  }

  /** The active file was read to its end, or could not be opened, and stays as it is: the next `put` will queue it from
      its first line. */
  ghost predicate Lingers(q0: seq<Cursor>, q: seq<Cursor>, io: Faults) {
    Queued(q0, Active) && q == [] && Active in io.lost + io.stuck
  }

  /** The active file survives the read unread only when it could not be opened, removed or truncated. */
  ghost function Leftover(d0: Disk, q0: seq<Cursor>, q: seq<Cursor>, io: Faults): seq<Line> {
    if Queued(q0, Active) then
      (if q == [] && Active in io.lost + io.stuck && Active in d0 then d0[Active].lines else [])
    else Orphan(d0, q0)
  }

  lemma ReadOutOwed(d0: Disk, q0: seq<Cursor>, n: nat, batch: seq<Event>, j: nat, q: seq<Cursor>, now: real, io: Faults)
    requires WellFormed(d0, q0) && ReadOut(d0, q0, n, batch, j, q, io)
    ensures var d := Finished(d0, q0[..j], now, io);
      && Unread(d, q) == Unread(d0, q)
      && Orphan(d, q) == Leftover(d0, q0, q, io)
      && Owed(d, q) == Events(Unread(d0, q)) + Events(Leftover(d0, q0, q, io))
      && OwedLines(d, q) == NonBlank(Unread(d0, q)) + NonBlank(Leftover(d0, q0, q, io))
  {
    ReadToUnread(d0, q0, j, q, now, io);
    ReadToOrphan(d0, q0, j, q, now, io);
    FullUnread(Finished(d0, q0[..j], now, io), q);
  }

  /** A read takes a prefix of what is owed, out of every file it can open, unless the active file lingers. */
  lemma TakeOrder(d0: Disk, q0: seq<Cursor>, n: nat, batch: seq<Event>, j: nat, q: seq<Cursor>, now: real, io: Faults)
    requires WellFormed(d0, q0) && ReadOut(d0, q0, n, batch, j, q, io)
    requires !Lingers(q0, q, io)
    ensures var d := Finished(d0, q0[..j], now, io);
      && IsSubseq(batch + Owed(d, q), Owed(d0, q0))
      && (Readable(q0, io) ==> batch + Owed(d, q) == Owed(d0, q0))
  {
    var d := Finished(d0, q0[..j], now, io);
    var rest, orphan := Events(Unread(d0, q)), Events(Orphan(d0, q0));
    ReadOutOwed(d0, q0, n, batch, j, q, now, io);
    FullUnread(d0, q0);
    assert Owed(d, q) == rest + orphan by {
      assert Events([]) == [];
    }
    ConcatAssoc(batch, rest, orphan);
    SubseqRefl(orphan);
    SubseqConcat(batch + rest, Events(Unread(d0, q0)), orphan, orphan);
  }

  /** If it lingers, it is all that is owed then, from its first line on. */
  lemma TakeLingers(d0: Disk, q0: seq<Cursor>, n: nat, batch: seq<Event>, j: nat, q: seq<Cursor>, now: real, io: Faults)
    requires WellFormed(d0, q0) && ReadOut(d0, q0, n, batch, j, q, io)
    requires Lingers(q0, q, io)
    ensures Active in d0 && batch == Events(Unread(d0, Openable(q0, io.lost)))
    ensures Owed(Finished(d0, q0[..j], now, io), q) == Events(d0[Active].lines)
  {
    var i :| 0 <= i < |q0| && q0[i].path == Active;
    ReadOutOwed(d0, q0, n, batch, j, q, now, io);
    assert q0[..j] == q0 && Openable(q0, io.lost) + q0[j..] == Openable(q0, io.lost);
    assert Events(Unread(d0, [])) == [] && batch + [] == batch;
    assert [] + Events(d0[Active].lines) == Events(d0[Active].lines);
  }

  /** A read from the stuck active file delivers again exactly when it empties the queue and that file holds an event. */
  lemma TakeStuck(d0: Disk, q0: seq<Cursor>, n: nat, batch: seq<Event>, j: nat, q: seq<Cursor>, now: real, io: Faults)
    requires WellFormed(d0, q0) && ReadOut(d0, q0, n, batch, j, q, io)
    requires io.lost == {} && Active in io.stuck
    ensures var d := Finished(d0, q0[..j], now, io);
      IsSubseq(batch + Owed(d, q), Owed(d0, q0))
      <==> !(Queued(q0, Active) && n > |Events(Unread(d0, q0))| && Events(d0[Active].lines) != [])
  {
    if q0 != [] {
      EmptiesIff(d0, q0, n, batch, j, q, io);
    }
    if Lingers(q0, q, io) {
      TakeLingers(d0, q0, n, batch, j, q, now, io);
      OpenableAll(q0, io.lost);
      QueuedOwes(d0, q0);
      SurplusIff(Owed(d0, q0), Events(d0[Active].lines));
    } else {
      TakeOrder(d0, q0, n, batch, j, q, now, io);
    }
  }

  /** One event in a stuck active file: a `take` of two delivers it and still owes it. */
  lemma StuckExample(io: Faults)
    requires io.lost == {} && Active in io.stuck
    ensures var d, q := map[Active := File([Record("a")], 0.0)], [Cursor(Active, 0)];
      && ReadOut(d, q, 2, ["a"], 1, [], io)
      && !IsSubseq(["a"] + Owed(Finished(d, q[..1], 0.0, io), []), Owed(d, q))
  {
    var d, q := map[Active := File([Record("a")], 0.0)], [Cursor(Active, 0)];
    OneEvent(d, q, "a");
    assert ReadOut(d, q, 2, ["a"], 1, [], io) by {
      assert q[..1] == q && q[1..] == [];
      OpenableAll(q, io.lost);
      assert Openable(q, io.lost) + [] == q && ["a"] + [] == ["a"];
      SubseqRefl(["a"]);
    }
    assert q[0].path == Active;
    TakeStuck(d, q, 2, ["a"], 1, [], 0.0, io);
  }

  lemma OneEvent(d: Disk, q: seq<Cursor>, ev: Event)
    requires q == [Cursor(Active, 0)] && Active in d && d[Active].lines == [Record(ev)]
    ensures Unread(d, q) == [Record(ev)] && Events(Unread(d, q)) == [ev] && NonBlank(Unread(d, q)) == 1
    ensures Unread(d, []) == [] && Events([]) == [] && NonBlank([]) == 0
  {
    UnreadSingle(d, q[0]);
    assert Rest(d, q[0]) == [Record(ev)];
    assert [Record(ev)][1..] == [];
  }

  /** When every file opens, a read empties the queue exactly when it asks for more than there is. */
  lemma EmptiesIff(d0: Disk, q0: seq<Cursor>, n: nat, batch: seq<Event>, j: nat, q: seq<Cursor>, io: Faults)
    requires ReadOut(d0, q0, n, batch, j, q, io) && io.lost == {} && q0 != []
    ensures q == [] <==> n > |Events(Unread(d0, q0))|
  {
    assert Readable(q0, io);
    assert |batch| + |Events(Unread(d0, q))| == |Events(Unread(d0, q0))|;
    assert q == [] ==> Events(Unread(d0, q)) == [];
  }

  lemma QueuedOwes(d: Disk, q: seq<Cursor>)
    requires Queued(q, Active)
    ensures Owed(d, q) == Events(Unread(d, q))
  {
  }

  lemma SurplusIff(all: seq<Event>, more: seq<Event>)
    ensures IsSubseq(all + more, all) <==> more == []
  {
    if more == [] {
      assert all + more == all;
      SubseqRefl(all);
    } else if IsSubseq(all + more, all) {
      SubseqLength(all + more, all);
    }
  }

  /** The events of the queued files in front of the last one. */
  ghost function InFront(d: Disk, q: seq<Cursor>): seq<Event>
    requires q != []
  {
    Events(Unread(d, q[..|q| - 1]))
  }

  /** The events already read from the last one. */
  ghost function AlreadyRead(d: Disk, q: seq<Cursor>): seq<Event>
    requires q != []
  {
    var last := q[|q| - 1];
    if last.path in d && last.off <= |d[last.path].lines| then Events(d[last.path].lines[..last.off]) else []
  }

  /** A read of an active file that cannot be opened passes it over, and delivers again later what was already read from
      it: exactly when the read gets that far and an event was. */
  lemma TakeUnopened(d0: Disk, q0: seq<Cursor>, n: nat, batch: seq<Event>, j: nat, q: seq<Cursor>, now: real, io: Faults)
    requires WellFormed(d0, q0) && ReadOut(d0, q0, n, batch, j, q, io)
    requires io.lost == {Active} && Queued(q0, Active)
    ensures q0 != []
    ensures IsSubseq(batch + Owed(Finished(d0, q0[..j], now, io), q), Owed(d0, q0))
      <==> !(n > |InFront(d0, q0)| && AlreadyRead(d0, q0) != [])
  {
    var front, last := q0[..|q0| - 1], q0[|q0| - 1];
    var i :| 0 <= i < |q0| && q0[i].path == Active;
    assert last.path == Active && q0 == front + [last];
    UnopenedIff(d0, q0, front, last, n, batch, j, q, now, io);
  }

  /** Two events in an active file that cannot be opened, the first of them delivered: a `take` returns nothing, and both are
      owed again. */
  lemma UnopenedExample(io: Faults)
    requires io.lost == {Active}
    ensures var d, q := map[Active := File([Record("a"), Record("b")], 0.0)], [Cursor(Active, 1)];
      && ReadOut(d, q, 1, [], 1, [], io)
      && !IsSubseq([] + Owed(Finished(d, q[..1], 0.0, io), []), Owed(d, q))
  {
    var d, q := map[Active := File([Record("a"), Record("b")], 0.0)], [Cursor(Active, 1)];
    assert q[0].path == Active && q[..0] == [] && q[..1] == q && q[1..] == [];
    assert Openable(q, io.lost) == [];
    assert [] + Events(Unread(d, [])) == [];
    assert [Record("a")][1..] == [] && d[Active].lines[..1] == [Record("a")];
    TakeUnopened(d, q, 1, [], 1, [], 0.0, io);
  }

  lemma UnopenedIff(d0: Disk, q0: seq<Cursor>, front: seq<Cursor>, last: Cursor, n: nat, batch: seq<Event>, j: nat,
                    q: seq<Cursor>, now: real, io: Faults)
    requires q0 == front + [last] && WellFormed(d0, q0) && ReadOut(d0, q0, n, batch, j, q, io)
    requires io.lost == {Active} && last.path == Active && Active in d0 && last.off <= |d0[Active].lines|
    ensures IsSubseq(batch + Owed(Finished(d0, q0[..j], now, io), q), Owed(d0, q0))
      <==> !(n > |Events(Unread(d0, front))| && Events(d0[Active].lines[..last.off]) != [])
  {
    PassesOverIff(d0, front, last, n, batch, j, q, io);
    if q == [] {
      assert q0[|front|] == last;
      TakeLingers(d0, q0, n, batch, j, q, now, io);
      AgainIff(d0, front, last);
    } else {
      TakeOrder(d0, q0, n, batch, j, q, now, io);
    }
  }

  lemma AgainIff(d: Disk, front: seq<Cursor>, last: Cursor)
    requires last.path == Active && Active in d && last.off <= |d[Active].lines|
    ensures IsSubseq(Events(Unread(d, front)) + Events(d[Active].lines), Owed(d, front + [last]))
      <==> Events(d[Active].lines[..last.off]) == []
  {
    UnopenedOwes(d, front, last);
    InsertedIff(Events(Unread(d, front)), Events(d[Active].lines[..last.off]), Events(Rest(d, last)));
  }

  /** It is passed over exactly when the read asks for more than the files in front of it hold. */
  lemma PassesOverIff(d0: Disk, front: seq<Cursor>, last: Cursor, n: nat, batch: seq<Event>, j: nat, q: seq<Cursor>,
                      io: Faults)
    requires WellFormed(d0, front + [last]) && ReadOut(d0, front + [last], n, batch, j, q, io)
    requires io.lost == {Active} && last.path == Active
    ensures q == [] <==> n > |Events(Unread(d0, front))|
    ensures q == [] ==> Openable(front + [last], io.lost) == front
  {
    var q0 := front + [last];
    assert forall i :: 0 <= i < |front| ==> front[i].path != Active by {
      assert forall i :: 0 <= i < |front| ==> front[i] == q0[i];
    }
    if q == [] {
      PassedOver(d0, front, last, n, batch, j, io);
    } else {
      NotReached(d0, front, last, n, batch, j, q, io);
    }
  }

  lemma PassedOver(d0: Disk, front: seq<Cursor>, last: Cursor, n: nat, batch: seq<Event>, j: nat, io: Faults)
    requires ReadOut(d0, front + [last], n, batch, j, [], io) && last.path in io.lost
    requires forall i :: 0 <= i < |front| ==> front[i].path !in io.lost
    ensures Openable(front + [last], io.lost) == front && batch == Events(Unread(d0, front))
  {
    var q0 := front + [last];
    assert Openable(q0, io.lost) == front by {
      OpenableAll(front, io.lost);
      assert q0[..|q0| - 1] == front && front + [] == front;
    }
    assert q0[..j] == q0 && Openable(q0, io.lost) + q0[j..] == front;
    assert Events(Unread(d0, [])) == [] && batch + [] == batch;
  }

  lemma NotReached(d0: Disk, front: seq<Cursor>, last: Cursor, n: nat, batch: seq<Event>, j: nat, q: seq<Cursor>, io: Faults)
    requires ReadOut(d0, front + [last], n, batch, j, q, io) && last.path in io.lost && q != []
    requires forall i :: 0 <= i < |front| ==> front[i].path !in io.lost
    ensures n <= |Events(Unread(d0, front))|
  {
    var q0 := front + [last];
    assert batch + Events(Unread(d0, q)) == Events(Unread(d0, q0)) by {
      OpenedWhole(front, last, j, io.lost);
    }
    LastUnread(d0, front, last);
    LastStays(d0, q0, j, q, io);
  }

  lemma OpenedWhole(front: seq<Cursor>, last: Cursor, j: nat, lost: set<Path>)
    requires j <= |front| && forall i :: 0 <= i < |front| ==> front[i].path !in lost
    ensures Openable((front + [last])[..j], lost) + (front + [last])[j..] == front + [last]
  {
    var q0 := front + [last];
    assert forall i :: 0 <= i < j ==> q0[..j][i] == front[i];
    OpenableAll(q0[..j], lost);
  }

  lemma LastStays(d0: Disk, q0: seq<Cursor>, j: nat, q: seq<Cursor>, io: Faults)
    requires ReadTo(d0, q0, j, q) && q != [] && (q[0].path in io.lost ==> q[0] == q0[j])
    requires q0[|q0| - 1].path in io.lost
    ensures |Events(Unread(d0, q))| >= |Events(Rest(d0, q0[|q0| - 1]))|
  {
    StaysBehind(d0, q0, j, q, io);
    LastUnread(d0, q[..|q| - 1], q0[|q0| - 1]);
  }

  /** The last cursor is still what it was. */
  lemma StaysBehind(d0: Disk, q0: seq<Cursor>, j: nat, q: seq<Cursor>, io: Faults)
    requires ReadTo(d0, q0, j, q) && q != [] && (q[0].path in io.lost ==> q[0] == q0[j])
    requires q0[|q0| - 1].path in io.lost
    ensures q == q[..|q| - 1] + [q0[|q0| - 1]]
  {
    if |q| > 1 {
      assert q[|q| - 1] == q0[j + (|q| - 1)];
    } else {
      assert j == |q0| - 1;
    }
  }

  lemma LastUnread(d: Disk, front: seq<Cursor>, last: Cursor)
    ensures Events(Unread(d, front + [last])) == Events(Unread(d, front)) + Events(Rest(d, last))
  {
    UnreadConcat(d, front, [last]);
    UnreadSingle(d, last);
    EventsConcat(Unread(d, front), Rest(d, last));
  }

  lemma UnopenedOwes(d: Disk, front: seq<Cursor>, last: Cursor)
    requires last.path == Active && Active in d && last.off <= |d[Active].lines|
    ensures Owed(d, front + [last]) == Events(Unread(d, front)) + Events(Rest(d, last))
    ensures Events(d[Active].lines) == Events(d[Active].lines[..last.off]) + Events(Rest(d, last))
  {
    assert Owed(d, front + [last]) == Events(Unread(d, front)) + Events(Rest(d, last)) by {
      assert (front + [last])[|front|].path == Active;
      QueuedOwes(d, front + [last]);
      LastUnread(d, front, last);
    }
    SplitLines(d[Active].lines, last.off);
  }

  lemma SplitLines(lines: seq<Line>, off: nat)
    requires off <= |lines|
    ensures Events(lines) == Events(lines[..off]) + Events(lines[off..])
  {
    assert lines == lines[..off] + lines[off..];
    EventsConcat(lines[..off], lines[off..]);
  }

  lemma InsertedIff(done: seq<Event>, before: seq<Event>, after: seq<Event>)
    ensures IsSubseq(done + (before + after), done + after) <==> before == []
  {
    if before == [] {
      assert before + after == after;
      SubseqRefl(done + after);
    } else if IsSubseq(done + (before + after), done + after) {
      SubseqLength(done + (before + after), done + after);
    }
  }

  lemma TakePending(d0: Disk, q0: seq<Cursor>, n: nat, batch: seq<Event>, j: nat, q: seq<Cursor>, now: real, io: Faults,
                    p0: nat, p: nat)
    requires WellFormed(d0, q0) && ReadOut(d0, q0, n, batch, j, q, io)
    requires !Lingers(q0, q, io)
    requires OwedLines(d0, q0) <= p0 && p == Less(p0, |batch|)
    ensures var d := Finished(d0, q0[..j], now, io);
      && OwedLines(d, q) <= p
      && (Readable(q0, io) && OwedLines(d0, q0) == p0 == |Owed(d0, q0)| ==> OwedLines(d, q) == p == |Owed(d, q)|)
  {
    var d := Finished(d0, q0[..j], now, io);
    var orphan := Orphan(d0, q0);
    assert OwedLines(d, q) == NonBlank(Unread(d0, q)) + NonBlank(orphan)
      && |Owed(d, q)| == |Events(Unread(d0, q))| + |Events(orphan)| by {
      ReadOutOwed(d0, q0, n, batch, j, q, now, io);
      assert NonBlank([]) == 0 && Events([]) == [];
    }
    FullUnread(d0, q0);
    EventsAtMostNonBlank(Unread(d0, q));
    EventsAtMostNonBlank(orphan);
    EventsAtMostNonBlank(Unread(d0, q0));
  }

  // ---- The loop of `_read_front` ----

  /** The state in the loop: `batch` was read, the first `j` files are finished, `q` is still to read. */
  ghost predicate Reading(d0: Disk, q0: seq<Cursor>, n: nat, batch: seq<Event>, j: nat, q: seq<Cursor>,
                          d: Disk, now: real, io: Faults)
  {
    && WellFormed(d0, q0)
    && ReadTo(d0, q0, j, q)
    && d == Finished(d0, q0[..j], now, io)
    && |batch| <= n
    && (j > 0 && q == [] ==> |batch| < n)
    && (|batch| < n ==> q == q0[j..] && batch == Events(Unread(d0, Openable(q0[..j], io.lost))))
    && (q != [] && q[0].path in io.lost ==> q[0] == q0[j])
    && batch + Events(Unread(d0, q)) == Events(Unread(d0, Openable(q0[..j], io.lost) + q0[j..]))
    && NonBlank(Unread(d0, q)) + |batch| <= NonBlank(Unread(d0, q0))
    && Aligned(d0, q)
  }

  lemma ReadingStarts(d0: Disk, q0: seq<Cursor>, n: nat, now: real, io: Faults)
    requires WellFormed(d0, q0) && Aligned(d0, q0)
    ensures Reading(d0, q0, n, [], 0, q0, d0, now, io)
  {
    assert [] + Events(Unread(d0, q0)) == Events(Unread(d0, q0));
    assert q0[..0] == [] && q0[0..] == q0 && [] + q0 == q0;
  }

  /** When the loop ends, the read is done. */
  lemma ReadingDone(d0: Disk, q0: seq<Cursor>, n: nat, batch: seq<Event>, j: nat, q: seq<Cursor>, d: Disk, now: real,
                    io: Faults)
    requires Reading(d0, q0, n, batch, j, q, d, now, io)
    requires q == [] || |batch| == n
    ensures ReadOut(d0, q0, n, batch, j, q, io)
  {
    var done, rest := q0[..j], q0[j..];
    assert q0 == done + rest;
    assert IsSubseq(Events(Unread(d0, Openable(done, io.lost) + rest)), Events(Unread(d0, q0))) by {
      OpenableSubseq(d0, done, io.lost);
      UnreadConcat(d0, Openable(done, io.lost), rest);
      UnreadConcat(d0, done, rest);
      EventsConcat(Unread(d0, Openable(done, io.lost)), Unread(d0, rest));
      EventsConcat(Unread(d0, done), Unread(d0, rest));
      SubseqRefl(Events(Unread(d0, rest)));
      SubseqConcat(Events(Unread(d0, Openable(done, io.lost))), Events(Unread(d0, done)),
                   Events(Unread(d0, rest)), Events(Unread(d0, rest)));
    }
    if Readable(q0, io) {
      OpenableAll(done, io.lost);
    }
  }

  lemma ReadingFront(d0: Disk, q0: seq<Cursor>, n: nat, batch: seq<Event>, j: nat, q: seq<Cursor>,
                     d: Disk, now: real, io: Faults)
    requires Reading(d0, q0, n, batch, j, q, d, now, io) && q != []
    ensures q[0].path in d && q[0].path in d0 && d[q[0].path] == d0[q[0].path]
  {
    ReadToFiles(d0, q0, j, q, now, io);
  }

  /** One round of the outer loop that sees the end of the front file, or cannot open it. */
  lemma ReadingPop(d0: Disk, q0: seq<Cursor>, n: nat, batch: seq<Event>, j: nat, q: seq<Cursor>, d: Disk,
                   got: seq<Event>, now: real, io: Faults)
    requires q != [] && |batch| + |got| < n
    requires Reading(d0, q0, n, batch, j, q, d, now, io)
    requires q[0].path in d0 && q[0].off <= |d0[q[0].path].lines|
    requires got == if q[0].path in io.lost then [] else Events(d0[q[0].path].lines[q[0].off..])
    ensures Reading(d0, q0, n, batch + got, j + 1, q[1..], FinishedOne(d, q[0].path, now, io), now, io)
  {
    var path := q[0].path;
    assert q[0] == q0[j] && q[1..] == q0[j + 1..];
    assert Finished(d0, q0[..j + 1], now, io) == FinishedOne(d, path, now, io) by {
      assert q0[..j + 1][..j] == q0[..j] && q0[..j + 1][j] == q0[j];
    }
    assert batch + got == Events(Unread(d0, Openable(q0[..j + 1], io.lost))) by {
      OpenedNext(d0, q0, j, io.lost);
    }
    assert NonBlank(Unread(d0, q[1..])) + |got| <= NonBlank(Unread(d0, q)) by {
      if path in io.lost {
        SkipFront(d0, q, batch);
      } else {
        ReadWhole(d0, q, batch);
      }
    }
    UnreadConcat(d0, Openable(q0[..j + 1], io.lost), q0[j + 1..]);
    EventsConcat(Unread(d0, Openable(q0[..j + 1], io.lost)), Unread(d0, q0[j + 1..]));
  }

  lemma OpenedNext(d: Disk, q: seq<Cursor>, j: nat, lost: set<Path>)
    requires j < |q|
    ensures Events(Unread(d, Openable(q[..j + 1], lost))) ==
      Events(Unread(d, Openable(q[..j], lost))) + if q[j].path in lost then [] else Events(Rest(d, q[j]))
  {
    OpenableNext(q, j, lost);
    var before := Events(Unread(d, Openable(q[..j], lost)));
    if q[j].path in lost {
      assert Openable(q[..j], lost) + [] == Openable(q[..j], lost) && before + [] == before;
    } else {
      LastUnread(d, Openable(q[..j], lost), q[j]);
    }
  }

  /** Reading the front file to its end. */
  lemma ReadWhole(d: Disk, q: seq<Cursor>, batch: seq<Event>)
    requires q != [] && q[0].path in d && q[0].off <= |d[q[0].path].lines|
    ensures
      var got := Events(d[q[0].path].lines[q[0].off..]);
      && (batch + got) + Events(Unread(d, q[1..])) == batch + Events(Unread(d, q))
      && NonBlank(Unread(d, q[1..])) + |got| <= NonBlank(Unread(d, q))
  {
    var lines := d[q[0].path].lines;
    var q' := [Cursor(q[0].path, |lines|)] + q[1..];
    assert lines[q[0].off..|lines|] == lines[q[0].off..];
    ReadStretch(d, q, |lines|, batch);
    PopUnread(d, q');
    assert q'[1..] == q[1..];
  }

  /** One round of the outer loop that fills the batch. */
  lemma ReadingFill(d0: Disk, q0: seq<Cursor>, n: nat, batch: seq<Event>, j: nat, q: seq<Cursor>, d: Disk,
                    got: seq<Event>, pos: nat, now: real, io: Faults)
    requires q != [] && |batch| + |got| == n
    requires Reading(d0, q0, n, batch, j, q, d, now, io)
    requires q[0].path in d0 && q[0].off <= pos <= |d0[q[0].path].lines|
    requires q[0].path !in io.lost && got == Events(d0[q[0].path].lines[q[0].off..pos])
    requires pos > 0 && d0[q[0].path].lines[pos - 1].Record?
    ensures Reading(d0, q0, n, batch + got, j, [Cursor(q[0].path, pos)] + q[1..], d, now, io)
  {
    var q' := [Cursor(q[0].path, pos)] + q[1..];
    ReadStretch(d0, q, pos, batch);
    FillAligned(d0, q, pos);
    assert ReadTo(d0, q0, j, q') by {
      assert forall i :: 0 < i < |q'| ==> q'[i] == q[i];
    }
    assert batch + got == batch + Events(d0[q[0].path].lines[q[0].off..pos]);
  }

  /** A cursor right behind an event is not behind a torn line. */
  lemma FillAligned(d: Disk, q: seq<Cursor>, pos: nat)
    requires q != [] && q[0].path in d && 0 < pos <= |d[q[0].path].lines| && d[q[0].path].lines[pos - 1].Record?
    requires Aligned(d, q)
    ensures Aligned(d, [Cursor(q[0].path, pos)] + q[1..])
  {
  }

  /** A file that cannot be opened is passed over. */
  lemma SkipFront(d: Disk, q: seq<Cursor>, batch: seq<Event>)
    requires q != []
    ensures IsSubseq(batch + Events(Unread(d, q[1..])), batch + Events(Unread(d, q)))
    ensures NonBlank(Unread(d, q[1..])) <= NonBlank(Unread(d, q))
  {
    var front, rest := Rest(d, q[0]), Unread(d, q[1..]);
    EventsConcat(front, rest);
    NonBlankConcat(front, rest);
    SubseqSuffix(Events(front), Events(rest));
    SubseqRefl(batch);
    SubseqConcat(batch, batch, Events(rest), Events(front) + Events(rest));
  }

  /** Reading on to line `to` of the front file moves its events from the queue to the batch. */
  lemma ReadStretch(d: Disk, q: seq<Cursor>, to: nat, batch: seq<Event>)
    requires q != [] && q[0].path in d && q[0].off <= to <= |d[q[0].path].lines|
    ensures
      var part := d[q[0].path].lines[q[0].off..to];
      var q' := [Cursor(q[0].path, to)] + q[1..];
      && (batch + Events(part)) + Events(Unread(d, q')) == batch + Events(Unread(d, q))
      && NonBlank(Unread(d, q')) + |Events(part)| <= NonBlank(Unread(d, q))
  {
    var part := d[q[0].path].lines[q[0].off..to];
    var q' := [Cursor(q[0].path, to)] + q[1..];
    AdvanceUnread(d, q, to);
    EventsConcat(part, Unread(d, q'));
    NonBlankConcat(part, Unread(d, q'));
    EventsAtMostNonBlank(part);
    ConcatAssoc(batch, Events(part), Events(Unread(d, q')));
  }
}
