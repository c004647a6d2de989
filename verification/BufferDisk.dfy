/** The directory of the telemetry buffer as values: segment files made of lines, and the
    cursor queue that says which part of which file is still unread. */
module BufferDisk {
  import opened Sequences

  /** An event is its one-line JSON text. */
  type Event = string

  /** A line of a segment. `_parse_line` yields an event, or nothing for a broken or a blank line. A torn line is the
      beginning of a record, `size + 1` bytes without a line feed. */
  datatype Line = Record(ev: Event) | Garbage(size: nat) | Blank(size: nat) | Torn(size: nat)

  datatype Path =
    | Active                         // buffer.jsonl
    | Rotated(stamp: nat, n: nat)    // buffer.<stamp>.jsonl, buffer.<stamp>-<n>.jsonl
    | Restored(stamp: nat, n: nat)   // buffer.restore.<stamp>.jsonl, ...-<n>.jsonl

  datatype File = File(lines: seq<Line>, mtime: real)

  type Disk = map<Path, File>

  /** The next unread line of a file (the byte offset is always the start of a line). */
  datatype Cursor = Cursor(path: Path, off: nat)

  /** How the append of a line ends: all but the first raise. A cut one leaves a part of the text. */
  datatype Append = Complete | Refused | Cut(size: nat) | Unsynced

  /** How the writing of a restore file ends: all but the first raise. A partly written one holds its first records, and
      perhaps a part of the next. */
  datatype Writing = Whole | NotOpened | Partly(records: nat, rest: Append)

  /** Which operating system calls fail during one operation. */
  datatype Faults = Faults(
    append: Append,        // writing the active file
    rename: bool,          // os.replace of the active file
    write: Writing,        // writing a restore file
    save: bool,            // writing the state file
    lost: set<Path>,       // open, getsize or getmtime of these paths raises
    stuck: set<Path>)      // these paths can be neither removed nor truncated

  const NO_FAULTS := Faults(Complete, false, Whole, false, {}, {})

  /** What an append leaves of the line of `ev`: a cut one leaves a proper part of the text, which never parses. */
  function LineLeft(ev: Event, append: Append): Option<Line> {
    match append
    case Complete => Some(Record(ev))
    case Unsynced => Some(Record(ev))
    case Refused => None
    case Cut(size) => if |ev| < 2 then None else Some(Torn(if size + 2 < |ev| then size else |ev| - 2))
  }

  /** The lines of a restore file, if there is one. */
  function LinesLeft(events: seq<Event>, write: Writing): Option<seq<Line>> {
    match write
    case Whole => Some(Records(events))
    case NotOpened => None
    case Partly(n, rest) =>
      if n >= |events| then Some(Records(events))
      else
        var part := LineLeft(events[n], rest);
        Some(Records(events[..n]) + if part.Some? then [part.value] else [])
  }

  function LineBytes(line: Line): nat {
    match line
    case Record(ev) => |ev| + 1
    case Garbage(size) => size + 1
    case Blank(size) => size + 1
    case Torn(size) => size + 1
  }

  function Bytes(lines: seq<Line>): nat {
    if lines == [] then 0 else LineBytes(lines[0]) + Bytes(lines[1..])
  }

  function Events(lines: seq<Line>): seq<Event> {
    if lines == [] then []
    else (if lines[0].Record? then [lines[0].ev] else []) + Events(lines[1..])
  }

  /** `_count_lines`: the non-blank lines, readable or not. */
  function NonBlank(lines: seq<Line>): nat {
    if lines == [] then 0 else (if lines[0].Blank? then 0 else 1) + NonBlank(lines[1..])
  }

  function Records(events: seq<Event>): seq<Line> {
    seq(|events|, i requires 0 <= i < |events| => Record(events[i]))
  }

  function Rest(disk: Disk, c: Cursor): seq<Line> {
    if c.path in disk && c.off <= |disk[c.path].lines| then disk[c.path].lines[c.off..] else []
  }

  function Unread(disk: Disk, q: seq<Cursor>): seq<Line> {
    if q == [] then [] else Rest(disk, q[0]) + Unread(disk, q[1..])
  }

  /** What `_count_lines` returns for one cursor: nothing when the file cannot be opened. */
  function CountAt(disk: Disk, c: Cursor, lost: set<Path>): nat {
    if c.path in lost then 0 else NonBlank(Rest(disk, c))
  }

  function Count(disk: Disk, q: seq<Cursor>, lost: set<Path>): nat {
    if q == [] then 0 else CountAt(disk, q[0], lost) + Count(disk, q[1..], lost)
  }

  function SizeAt(disk: Disk, c: Cursor, lost: set<Path>): nat {
    if c.path in disk && c.path !in lost then Bytes(disk[c.path].lines) else 0
  }

  /** `_total_bytes`: whole files, the part already read included. */
  function Size(disk: Disk, q: seq<Cursor>, lost: set<Path>): nat {
    if q == [] then 0 else SizeAt(disk, q[0], lost) + Size(disk, q[1..], lost)
  }

  function Less(a: nat, b: nat): nat {
    if a < b then 0 else a - b
  }

  predicate Queued(q: seq<Cursor>, p: Path) {
    exists i :: 0 <= i < |q| && q[i].path == p
  }

  function Paths(q: seq<Cursor>): set<Path> {
    set i | 0 <= i < |q| :: q[i].path
  }

  function ActiveLines(d: Disk): seq<Line> {
    if Active in d then d[Active].lines else []
  }

  predicate TornEnd(lines: seq<Line>) {
    lines != [] && lines[|lines| - 1].Torn?
  }

  /** The active file ends in the middle of a record. */
  predicate TornActive(d: Disk) {
    TornEnd(ActiveLines(d))
  }

  /** No cursor stands behind a torn line: a read that got there has seen the end of the file. */
  ghost predicate Aligned(d: Disk, q: seq<Cursor>) {
    forall i :: 0 <= i < |q| && q[i].path == Active && TornActive(d) ==> q[i].off != |ActiveLines(d)|
  }

  /** The representation invariant: distinct paths, cursors inside their files, active file last. */
  ghost predicate WellFormed(disk: Disk, q: seq<Cursor>) {
    && (forall i, j :: 0 <= i < j < |q| ==> q[i].path != q[j].path)
    && (forall i :: 0 <= i < |q| ==> q[i].path in disk && q[i].off <= |disk[q[i].path].lines|)
    && (forall i :: 0 <= i < |q| - 1 ==> q[i].path != Active)
  }

  /** The queue as the next `put` will leave it: an active file that nobody queued comes last, from its start. */
  function FullQueue(disk: Disk, q: seq<Cursor>): seq<Cursor> {
    if Active in disk && !Queued(q, Active) then q + [Cursor(Active, 0)] else q
  }

  /** Everything the buffer still owes its reader, oldest first. */
  function Owed(disk: Disk, q: seq<Cursor>): seq<Event> {
    Events(Unread(disk, FullQueue(disk, q)))
  }

  /** The lines that `_pending` should count. */
  ghost function OwedLines(d: Disk, q: seq<Cursor>): nat {
    NonBlank(Unread(d, FullQueue(d, q)))
  }

  /** The first stage of `_prune`: the active file always stays, another file only while it is fresh. */
  predicate Fresh(disk: Disk, c: Cursor, cutoff: real, lost: set<Path>) {
    c.path == Active || (c.path in disk && c.path !in lost && cutoff <= disk[c.path].mtime)
  }

  function AgeKept(disk: Disk, q: seq<Cursor>, cutoff: real, lost: set<Path>): seq<Cursor> {
    if q == [] then []
    else (if Fresh(disk, q[0], cutoff, lost) then [q[0]] else []) + AgeKept(disk, q[1..], cutoff, lost)
  }

  // ---- Distribution over concatenation ----

  lemma EventsCons(line: Line, rest: seq<Line>)
    ensures Events([line] + rest) == (if line.Record? then [line.ev] else []) + Events(rest)
  {
    assert ([line] + rest)[1..] == rest;
  }

  lemma {:induction false} EventsConcat(a: seq<Line>, b: seq<Line>)
    ensures Events(a + b) == Events(a) + Events(b)
  {
    if a == [] {
      assert a + b == b;
    } else {
      var line, rest := a[0], a[1..];
      assert a == [line] + rest && a + b == [line] + (rest + b);
      EventsCons(line, rest);
      EventsCons(line, rest + b);
      EventsConcat(rest, b);
      ConcatAssoc(if line.Record? then [line.ev] else [], Events(rest), Events(b));
    }
  }

  lemma {:induction false} NonBlankConcat(a: seq<Line>, b: seq<Line>)
    ensures NonBlank(a + b) == NonBlank(a) + NonBlank(b)
  {
    if a == [] {
      assert a + b == b;
    } else {
      NonBlankConcat(a[1..], b);
      assert (a + b)[1..] == a[1..] + b;
    }
  }

  lemma {:induction false} BytesConcat(a: seq<Line>, b: seq<Line>)
    ensures Bytes(a + b) == Bytes(a) + Bytes(b)
  {
    if a == [] {
      assert a + b == b;
    } else {
      BytesConcat(a[1..], b);
      assert (a + b)[1..] == a[1..] + b;
    }
  }

  lemma UnreadCons(disk: Disk, c: Cursor, q: seq<Cursor>)
    ensures Unread(disk, [c] + q) == Rest(disk, c) + Unread(disk, q)
  {
    assert ([c] + q)[1..] == q;
  }

  lemma {:induction false} UnreadConcat(disk: Disk, a: seq<Cursor>, b: seq<Cursor>)
    ensures Unread(disk, a + b) == Unread(disk, a) + Unread(disk, b)
  {
    if a == [] {
      assert a + b == b;
    } else {
      var c, rest := a[0], a[1..];
      assert a == [c] + rest && a + b == [c] + (rest + b);
      UnreadCons(disk, c, rest);
      UnreadCons(disk, c, rest + b);
      UnreadConcat(disk, rest, b);
      ConcatAssoc(Rest(disk, c), Unread(disk, rest), Unread(disk, b));
    }
  }

  lemma {:induction false} CountConcat(disk: Disk, a: seq<Cursor>, b: seq<Cursor>, lost: set<Path>)
    ensures Count(disk, a + b, lost) == Count(disk, a, lost) + Count(disk, b, lost)
  {
    if a == [] {
      assert a + b == b;
    } else {
      CountConcat(disk, a[1..], b, lost);
      assert (a + b)[1..] == a[1..] + b;
    }
  }

  lemma {:induction false} SizeConcat(disk: Disk, a: seq<Cursor>, b: seq<Cursor>, lost: set<Path>)
    ensures Size(disk, a + b, lost) == Size(disk, a, lost) + Size(disk, b, lost)
  {
    if a == [] {
      assert a + b == b;
    } else {
      SizeConcat(disk, a[1..], b, lost);
      assert (a + b)[1..] == a[1..] + b;
    }
  }

  lemma {:induction false} AgeKeptConcat(disk: Disk, a: seq<Cursor>, b: seq<Cursor>, cutoff: real, lost: set<Path>)
    ensures AgeKept(disk, a + b, cutoff, lost) == AgeKept(disk, a, cutoff, lost) + AgeKept(disk, b, cutoff, lost)
  {
    if a == [] {
      assert a + b == b;
    } else {
      var head := if Fresh(disk, a[0], cutoff, lost) then [a[0]] else [];
      AgeKeptConcat(disk, a[1..], b, cutoff, lost);
      assert (a + b)[1..] == a[1..] + b;
      ConcatAssoc(head, AgeKept(disk, a[1..], cutoff, lost), AgeKept(disk, b, cutoff, lost));
    }
  }

  /** A cut append leaves a part of the text: at least its first byte, never the last, and any length between. */
  lemma CutLeaves(ev: Event, size: nat, n: nat)
    ensures var left := LineLeft(ev, Cut(size));
      if |ev| < 2 then left == None else left.Some? && left.value.Torn? && 1 <= LineBytes(left.value) < |ev|
    ensures 1 <= n < |ev| ==> LineLeft(ev, Cut(n - 1)).Some? && LineBytes(LineLeft(ev, Cut(n - 1)).value) == n
  {
  }

  function Lengths(events: seq<Event>): nat {
    if events == [] then 0 else |events[0]| + Lengths(events[1..])
  }

  /** A file of records is as long as their texts and one line feed for each. */
  lemma {:induction false} RecordsBytes(events: seq<Event>)
    ensures Bytes(Records(events)) == Lengths(events) + |events|
  {
    if events != [] {
      RecordsBytes(events[1..]);
      assert Records(events)[1..] == Records(events[1..]);
    }
  }

  /** The lines that are not blank. */
  function Solid(lines: seq<Line>): set<nat> {
    set i | 0 <= i < |lines| && !lines[i].Blank?
  }

  /** `_count_lines` counts those, broken or not, each once. */
  lemma {:induction false} NonBlankCounts(lines: seq<Line>)
    ensures NonBlank(lines) == |Solid(lines)|
  {
    if lines == [] {
      assert forall i :: i !in Solid(lines);
    } else {
      var n := |lines| - 1;
      NonBlankCounts(lines[..n]);
      assert lines == lines[..n] + [lines[n]] && [lines[n]][1..] == [];
      NonBlankConcat(lines[..n], [lines[n]]);
      assert Solid(lines) == Solid(lines[..n]) + if lines[n].Blank? then {} else {n};
    }
  }

  /** Without unreadable files, the line count of a queue is the number of its non-blank unread lines. */
  lemma {:induction false} CountIsNonBlank(disk: Disk, q: seq<Cursor>)
    ensures Count(disk, q, {}) == NonBlank(Unread(disk, q))
  {
    if q != [] {
      CountIsNonBlank(disk, q[1..]);
      NonBlankConcat(Rest(disk, q[0]), Unread(disk, q[1..]));
    }
  }

  /** Files that fail to open are not counted, so faults only lower the count. */
  lemma {:induction false} CountUnderFaults(disk: Disk, q: seq<Cursor>, lost: set<Path>)
    ensures Count(disk, q, lost) <= NonBlank(Unread(disk, q))
  {
    if q != [] {
      CountUnderFaults(disk, q[1..], lost);
      NonBlankConcat(Rest(disk, q[0]), Unread(disk, q[1..]));
    }
  }

  lemma {:induction false} EventsAtMostNonBlank(lines: seq<Line>)
    ensures |Events(lines)| <= NonBlank(lines)
  {
    if lines != [] {
      EventsAtMostNonBlank(lines[1..]);
    }
  }

  lemma {:induction false} EventsOfRecords(events: seq<Event>)
    ensures Events(Records(events)) == events
    ensures NonBlank(Records(events)) == |events|
  {
    if events != [] {
      EventsOfRecords(events[1..]);
      assert Records(events)[1..] == Records(events[1..]);
    }
  }

  /** A restore file has all its records, or begins with those that were written. */
  lemma LeftBegins(events: seq<Event>, n: nat, rest: Append)
    requires n <= |events|
    ensures var left := LinesLeft(events, Partly(n, rest));
      left.Some? && n <= |left.value| <= n + 1 && left.value[..n] == Records(events[..n])
    ensures LinesLeft(events, Whole) == LinesLeft(events, Partly(|events|, rest)) == Some(Records(events))
  {
    if n == |events| {
      assert events[..n] == events;
    }
  }

  /** Of a restore file, its first events arrive. */
  lemma LeftInOrder(events: seq<Event>, write: Writing)
    requires LinesLeft(events, write).Some?
    ensures !write.NotOpened?
    ensures IsSubseq(Events(LinesLeft(events, write).value), events)
  {
    EventsOfRecords(events);
    SubseqRefl(events);
    if write.Partly? && write.records < |events| {
      var n := write.records;
      var part := LineLeft(events[n], write.rest);
      var more := if part.Some? then [part.value] else [];
      EventsOfRecords(events[..n]);
      EventsConcat(Records(events[..n]), more);
      assert more != [] ==> more[1..] == [];
      assert events == events[..n] + events[n..];
      assert IsSubseq(Events(more), events[n..]);
      SubseqRefl(events[..n]);
      SubseqConcat(events[..n], events[..n], Events(more), events[n..]);
    }
  }

  /** Only the files that a queue names matter to what it still has to read. */
  lemma {:induction false} UnreadFrame(d: Disk, d': Disk, q: seq<Cursor>)
    requires forall i :: 0 <= i < |q| ==> Rest(d, q[i]) == Rest(d', q[i])
    ensures Unread(d, q) == Unread(d', q)
  {
    if q != [] {
      UnreadFrame(d, d', q[1..]);
    }
  }

  lemma {:induction false} SizeFrame(d: Disk, d': Disk, q: seq<Cursor>, lost: set<Path>)
    requires forall i :: 0 <= i < |q| ==> SizeAt(d, q[i], lost) == SizeAt(d', q[i], lost)
    ensures Size(d, q, lost) == Size(d', q, lost)
  {
    if q != [] {
      SizeFrame(d, d', q[1..], lost);
    }
  }

  lemma {:induction false} CountFrame(d: Disk, d': Disk, q: seq<Cursor>, lost: set<Path>)
    requires forall i :: 0 <= i < |q| ==> CountAt(d, q[i], lost) == CountAt(d', q[i], lost)
    ensures Count(d, q, lost) == Count(d', q, lost)
  {
    if q != [] {
      CountFrame(d, d', q[1..], lost);
    }
  }

  lemma {:induction false} AgeKeptFrame(d: Disk, d': Disk, q: seq<Cursor>, cutoff: real, lost: set<Path>)
    requires forall i :: 0 <= i < |q| ==> (Fresh(d, q[i], cutoff, lost) <==> Fresh(d', q[i], cutoff, lost))
    ensures AgeKept(d, q, cutoff, lost) == AgeKept(d', q, cutoff, lost)
  {
    if q != [] {
      AgeKeptFrame(d, d', q[1..], cutoff, lost);
    }
  }

  /** What survives the age stage is a subsequence of the queue. */
  lemma {:induction false} AgeKeptSubseq(disk: Disk, q: seq<Cursor>, cutoff: real, lost: set<Path>)
    ensures IsSubseq(AgeKept(disk, q, cutoff, lost), q)
  {
    if q != [] {
      AgeKeptSubseq(disk, q[1..], cutoff, lost);
      var kept := AgeKept(disk, q[1..], cutoff, lost);
      if Fresh(disk, q[0], cutoff, lost) {
        assert ([q[0]] + kept)[1..] == kept;
      } else {
        assert [] + kept == kept;
      }
    }
  }

  /** All of it is fresh, so a second pass drops nothing; and a fresh queue survives whole. */
  lemma {:induction false} AgeKeptFresh(disk: Disk, q: seq<Cursor>, cutoff: real, lost: set<Path>)
    ensures forall i :: 0 <= i < |AgeKept(disk, q, cutoff, lost)| ==> Fresh(disk, AgeKept(disk, q, cutoff, lost)[i], cutoff, lost)
    ensures (forall i :: 0 <= i < |q| ==> Fresh(disk, q[i], cutoff, lost)) ==> AgeKept(disk, q, cutoff, lost) == q
  {
    if q != [] {
      AgeKeptFresh(disk, q[1..], cutoff, lost);
    }
  }

  /** Dropping whole segments leaves a subsequence of the events and can only lower count and size. */
  lemma {:induction false} SubqueueUnread(disk: Disk, a: seq<Cursor>, q: seq<Cursor>, lost: set<Path>)
    requires IsSubseq(a, q)
    ensures IsSubseq(Events(Unread(disk, a)), Events(Unread(disk, q)))
    ensures Count(disk, a, lost) <= Count(disk, q, lost)
    ensures Size(disk, a, lost) <= Size(disk, q, lost)
    decreases |q|
  {
    if q == [] {
    } else {
      EventsConcat(Rest(disk, q[0]), Unread(disk, q[1..]));
      if a == [] {
        SubqueueUnread(disk, [], q[1..], lost);
      } else if a[0] == q[0] && IsSubseq(a[1..], q[1..]) {
        SubqueueUnread(disk, a[1..], q[1..], lost);
        EventsConcat(Rest(disk, a[0]), Unread(disk, a[1..]));
        SubseqRefl(Events(Rest(disk, a[0])));
        SubseqConcat(Events(Rest(disk, a[0])), Events(Rest(disk, q[0])),
                     Events(Unread(disk, a[1..])), Events(Unread(disk, q[1..])));
      } else {
        SubqueueUnread(disk, a, q[1..], lost);
        SubseqConcat([], Events(Rest(disk, q[0])), Events(Unread(disk, a)), Events(Unread(disk, q[1..])));
        assert [] + Events(Unread(disk, a)) == Events(Unread(disk, a));
      }
    }
  }

  /** A subsequence of a well-formed queue is well-formed. */
  lemma {:induction false} SubqueueWellFormed(disk: Disk, a: seq<Cursor>, q: seq<Cursor>)
    requires IsSubseq(a, q) && WellFormed(disk, q)
    ensures WellFormed(disk, a)
    ensures forall c :: c in a ==> c in q
    decreases |q|
  {
    if a == [] || q == [] {
    } else {
      assert WellFormed(disk, q[1..]) by {
        assert forall i :: 0 <= i < |q| - 1 ==> q[1..][i] == q[i + 1];
      }
      if a[0] == q[0] && IsSubseq(a[1..], q[1..]) {
        SubqueueWellFormed(disk, a[1..], q[1..]);
        SubseqLength(a[1..], q[1..]);
        forall j | 0 < j < |a|
          ensures a[j].path != a[0].path
        {
          assert a[j] in a[1..];
          var k :| 0 <= k < |q[1..]| && q[1..][k] == a[j];
          assert q[k + 1] == a[j];
        }
        assert a == [a[0]] + a[1..];
        forall i, j | 0 <= i < j < |a| ensures a[i].path != a[j].path {
          if i > 0 {
            assert a[i] == a[1..][i - 1] && a[j] == a[1..][j - 1];
          }
        }
        forall i | 0 <= i < |a| - 1 ensures a[i].path != Active {
          if i > 0 {
            assert a[i] == a[1..][i - 1];
          } else {
            assert |q| > 1;
          }
        }
        forall i | 0 <= i < |a| ensures a[i].path in disk && a[i].off <= |disk[a[i].path].lines| {
          if i > 0 {
            assert a[i] == a[1..][i - 1];
          }
        }
      } else {
        SubqueueWellFormed(disk, a, q[1..]);
      }
    }
  }

  // ---- Retention ----

  /** The cached count after the unread lines went from `before` to `after`; it never goes below zero. */
  function Remaining(pending: nat, before: nat, after: nat): nat {
    if pending + after < before then 0 else pending + after - before
  }

  /** The part of the buffer that retention changes; `dropped` counts the unread events it threw away. */
  datatype Snapshot = Snapshot(disk: Disk, queue: seq<Cursor>, pending: nat, dropped: nat)

  /** `s` is reached from `s0` by dropping whole segments and nothing else. */
  ghost predicate Pruned(s0: Snapshot, s: Snapshot, io: Faults) {
    && IsSubseq(s.queue, s0.queue)
    && s.disk == s0.disk - (Paths(s0.queue) - Paths(s.queue) - io.stuck)
    && s.pending == Remaining(s0.pending, Count(s0.disk, s0.queue, io.lost), Count(s0.disk, s.queue, io.lost))
    && s.dropped + |Events(Unread(s0.disk, s.queue))| == s0.dropped + |Events(Unread(s0.disk, s0.queue))|
  }

  lemma PrunedRefl(s: Snapshot, io: Faults)
    ensures Pruned(s, s, io)
  {
    SubseqRefl(s.queue);
  }

  lemma PrunedWellFormed(s0: Snapshot, s: Snapshot, io: Faults)
    requires WellFormed(s0.disk, s0.queue)
    requires Pruned(s0, s, io)
    ensures WellFormed(s0.disk, s.queue) && WellFormed(s.disk, s.queue)
    ensures forall i :: 0 <= i < |s.queue| ==>
      s.queue[i].path in s.disk && s.disk[s.queue[i].path] == s0.disk[s.queue[i].path]
  {
    SubqueueWellFormed(s0.disk, s.queue, s0.queue);
  }

  lemma PrunedAligned(s0: Snapshot, s: Snapshot, io: Faults)
    requires WellFormed(s0.disk, s0.queue) && Aligned(s0.disk, s0.queue) && Pruned(s0, s, io)
    ensures Aligned(s.disk, s.queue)
  {
    SubqueueWellFormed(s0.disk, s.queue, s0.queue);
    forall i | 0 <= i < |s.queue| && s.queue[i].path == Active && TornActive(s.disk)
      ensures s.queue[i].off != |ActiveLines(s.disk)|
    {
      assert s.queue[i] in s0.queue;
    }
  }

  /** The surviving files are as they were, so any part of the surviving queue measures the same. */
  lemma PrunedFrame(s0: Snapshot, s: Snapshot, r: seq<Cursor>, io: Faults)
    requires WellFormed(s0.disk, s0.queue) && Pruned(s0, s, io)
    requires forall i :: 0 <= i < |r| ==> r[i] in s.queue
    ensures Unread(s.disk, r) == Unread(s0.disk, r)
    ensures Count(s.disk, r, io.lost) == Count(s0.disk, r, io.lost)
    ensures Size(s.disk, r, io.lost) == Size(s0.disk, r, io.lost)
  {
    PrunedWellFormed(s0, s, io);
    forall i | 0 <= i < |r|
      ensures r[i].path in s.disk && r[i].path in s0.disk && s.disk[r[i].path] == s0.disk[r[i].path]
    {
      assert r[i] in s.queue;
    }
    UnreadFrame(s.disk, s0.disk, r);
    CountFrame(s.disk, s0.disk, r, io.lost);
    SizeFrame(s.disk, s0.disk, r, io.lost);
  }

  /** The snapshot after `_drop_path` on the path at index `i`. */
  function DroppedAt(s: Snapshot, i: nat, io: Faults): Snapshot
    requires i < |s.queue|
  {
    var c := s.queue[i];
    Snapshot(if c.path in io.stuck then s.disk else s.disk - {c.path},
             s.queue[..i] + s.queue[i + 1..],
             Remaining(s.pending, CountAt(s.disk, c, io.lost), 0),
             s.dropped + |Events(Rest(s.disk, c))|)
  }

  /** One `_drop_path` keeps the relation. */
  lemma PrunedStep(s0: Snapshot, s: Snapshot, io: Faults, i: nat)
    requires WellFormed(s0.disk, s0.queue)
    requires Pruned(s0, s, io)
    requires i < |s.queue|
    ensures Pruned(s0, DroppedAt(s, i, io), io)
  {
    var q0, q := s0.queue, s.queue;
    var a, c, b := q[..i], q[i], q[i + 1..];
    assert q == a + ([c] + b);
    assert IsSubseq(a + b, q0) by {
      WithoutSubseq(a, c, b);
      SubseqTrans(a + b, q, q0);
    }
    StepDisk(s0, s, io, i);
    assert CountAt(s.disk, c, io.lost) == CountAt(s0.disk, c, io.lost) && Rest(s.disk, c) == Rest(s0.disk, c) by {
      PrunedWellFormed(s0, s, io);
    }
    PartsCounted(s0.disk, q0, a, c, b, io.lost);
  }

  lemma StepDisk(s0: Snapshot, s: Snapshot, io: Faults, i: nat)
    requires WellFormed(s0.disk, s0.queue) && Pruned(s0, s, io) && i < |s.queue|
    ensures DroppedAt(s, i, io).disk == s0.disk - (Paths(s0.queue) - Paths(s.queue[..i] + s.queue[i + 1..]) - io.stuck)
  {
    PrunedWellFormed(s0, s, io);
    WithoutPaths(s0.disk, s.queue, i);
    SubqueueWellFormed(s0.disk, s.queue, s0.queue);
    PathsSubset(s.queue, s0.queue);
    DropFromDisk(s0.disk, Paths(s0.queue), Paths(s.queue), s.queue[i].path, io.stuck);
  }

  /** What a dropped segment takes from the counts. */
  lemma PartsCounted(d: Disk, q0: seq<Cursor>, a: seq<Cursor>, c: Cursor, b: seq<Cursor>, lost: set<Path>)
    requires IsSubseq(a + ([c] + b), q0)
    ensures Count(d, a + ([c] + b), lost) == CountAt(d, c, lost) + Count(d, a + b, lost) <= Count(d, q0, lost)
    ensures |Events(Unread(d, a + ([c] + b)))| == |Events(Rest(d, c))| + |Events(Unread(d, a + b))|
  {
    SubqueueUnread(d, a + ([c] + b), q0, lost);
    UnreadParts(d, a, c, b, lost);
  }

  lemma PrunedTrans(s0: Snapshot, s1: Snapshot, s2: Snapshot, io: Faults)
    requires WellFormed(s0.disk, s0.queue)
    requires Pruned(s0, s1, io) && Pruned(s1, s2, io)
    ensures Pruned(s0, s2, io)
  {
    PrunedWellFormed(s0, s1, io);
    SubqueueWellFormed(s1.disk, s2.queue, s1.queue);
    SubseqTrans(s2.queue, s1.queue, s0.queue);
    PrunedFrame(s0, s1, s1.queue, io);
    PrunedFrame(s0, s1, s2.queue, io);
    assert Count(s0.disk, s2.queue, io.lost) <= Count(s0.disk, s1.queue, io.lost) <= Count(s0.disk, s0.queue, io.lost) by {
      SubqueueUnread(s0.disk, s1.queue, s0.queue, io.lost);
      SubqueueUnread(s0.disk, s2.queue, s1.queue, io.lost);
    }
    assert Paths(s2.queue) <= Paths(s1.queue) <= Paths(s0.queue) by {
      SubqueueWellFormed(s0.disk, s1.queue, s0.queue);
      PathsSubset(s1.queue, s0.queue);
      PathsSubset(s2.queue, s1.queue);
    }
    DropTwice(s0.disk, Paths(s0.queue), Paths(s1.queue), Paths(s2.queue), io.stuck);
  }

  lemma DropTwice(d: Disk, a: set<Path>, b: set<Path>, c: set<Path>, stuck: set<Path>)
    requires c <= b <= a
    ensures (d - (a - b - stuck)) - (b - c - stuck) == d - (a - c - stuck)
  {
    assert (a - b - stuck) + (b - c - stuck) == a - c - stuck;
  }

  lemma PathsSubset(a: seq<Cursor>, q: seq<Cursor>)
    requires forall c :: c in a ==> c in q
    ensures Paths(a) <= Paths(q)
  {
    forall i | 0 <= i < |a| ensures a[i].path in Paths(q) {
      assert a[i] in q;
    }
  }

  lemma WithoutSubseq(a: seq<Cursor>, c: Cursor, b: seq<Cursor>)
    ensures IsSubseq(a + b, a + ([c] + b))
  {
    SubseqRefl(a);
    SubseqSuffix([c], b);
    SubseqConcat(a, a, b, [c] + b);
  }

  lemma WithoutPaths(d: Disk, q: seq<Cursor>, i: nat)
    requires WellFormed(d, q) && i < |q|
    ensures Paths(q[..i] + q[i + 1..]) == Paths(q) - {q[i].path}
  {
    var r := q[..i] + q[i + 1..];
    forall k | 0 <= k < |r| ensures r[k].path in Paths(q) - {q[i].path} {
      assert r[k] == if k < i then q[k] else q[k + 1];
    }
    forall k | 0 <= k < |q| && k != i ensures q[k].path in Paths(r) {
      assert q[k] == if k < i then r[k] else r[k - 1];
    }
  }

  lemma DropFromDisk(d0: Disk, all: set<Path>, kept: set<Path>, p: Path, stuck: set<Path>)
    requires kept <= all && p in kept
    ensures var d := d0 - (all - kept - stuck);
      (if p in stuck then d else d - {p}) == d0 - (all - (kept - {p}) - stuck)
  {
    var d := d0 - (all - kept - stuck);
    if p in stuck {
      assert all - kept - stuck == all - (kept - {p}) - stuck;
    } else {
      assert (all - kept - stuck) + {p} == all - (kept - {p}) - stuck;
    }
  }

  lemma UnreadParts(d: Disk, a: seq<Cursor>, c: Cursor, b: seq<Cursor>, lost: set<Path>)
    ensures Count(d, a + ([c] + b), lost) == Count(d, a + b, lost) + CountAt(d, c, lost)
    ensures |Events(Unread(d, a + ([c] + b)))| == |Events(Unread(d, a + b))| + |Events(Rest(d, c))|
    ensures Size(d, a + ([c] + b), lost) == Size(d, a + b, lost) + SizeAt(d, c, lost)
  {
    CountConcat(d, a, [c] + b, lost);
    CountConcat(d, a, b, lost);
    SizeConcat(d, a, [c] + b, lost);
    SizeConcat(d, a, b, lost);
    UnreadConcat(d, a, [c] + b);
    UnreadConcat(d, a, b);
    EventsConcat(Unread(d, a), Unread(d, [c] + b));
    EventsConcat(Unread(d, a), Unread(d, b));
    EventsConcat(Rest(d, c), Unread(d, b));
    assert ([c] + b)[1..] == b;
  }

  // ---- The active file ----

  /** A line written behind a torn one becomes part of it. */
  function Joined(torn: Line, line: Line): Line
    requires torn.Torn?
  {
    if line.Torn? then Torn(torn.size + line.size + 1) else Garbage(torn.size + LineBytes(line))
  }

  function Extended(lines: seq<Line>, line: Line): seq<Line> {
    if TornEnd(lines) then lines[..|lines| - 1] + [Joined(lines[|lines| - 1], line)] else lines + [line]
  }

  function EventsIn(line: Line): seq<Event> {
    if line.Record? then [line.ev] else []
  }

  /** Behind a torn line, the new one is lost; otherwise it is one line more. The bytes add up. */
  lemma ExtendedCounts(lines: seq<Line>, line: Line)
    requires !line.Blank?
    ensures Events(Extended(lines, line)) == Events(lines) + if TornEnd(lines) then [] else EventsIn(line)
    ensures NonBlank(Extended(lines, line)) == NonBlank(lines) + if TornEnd(lines) then 0 else 1
    ensures Bytes(Extended(lines, line)) == Bytes(lines) + LineBytes(line)
  {
    var front, last, added := lines, [], line;
    if TornEnd(lines) {
      front, last, added := lines[..|lines| - 1], [lines[|lines| - 1]], Joined(lines[|lines| - 1], line);
      assert lines == front + last && last[1..] == [];
    } else {
      assert lines + [] == lines;
    }
    assert [added][1..] == [];
    EventsConcat(front, last);
    EventsConcat(front, [added]);
    NonBlankConcat(front, last);
    NonBlankConcat(front, [added]);
    BytesConcat(front, last);
    BytesConcat(front, [added]);
  }

  /** The disk and the queue after `_append_line`. */
  function AppendedDisk(d: Disk, line: Line, now: real): Disk {
    d[Active := File(Extended(ActiveLines(d), line), now)]
  }

  function AppendedQueue(q: seq<Cursor>): seq<Cursor> {
    if Queued(q, Active) then q else q + [Cursor(Active, 0)]
  }

  lemma AppendedWellFormed(d: Disk, q: seq<Cursor>, line: Line, now: real)
    requires WellFormed(d, q) && Aligned(d, q)
    ensures WellFormed(AppendedDisk(d, line, now), q) && Aligned(AppendedDisk(d, line, now), q)
    ensures WellFormed(AppendedDisk(d, line, now), AppendedQueue(q)) && Aligned(AppendedDisk(d, line, now), AppendedQueue(q))
    ensures Queued(AppendedQueue(q), Active)
    ensures FullQueue(AppendedDisk(d, line, now), q) == AppendedQueue(q)
  {
    if !Queued(q, Active) {
      assert AppendedQueue(q)[|q|].path == Active;
    }
  }

  /** Appending a line adds exactly that line at the end of what is owed, be the active file queued or not; but a file that
      ends in a torn line swallows it. */
  lemma AppendedUnread(d: Disk, q: seq<Cursor>, line: Line, now: real)
    requires WellFormed(d, q) && Aligned(d, q) && !line.Blank?
    ensures var d' := AppendedDisk(d, line, now);
      && Owed(d', q) == Owed(d', AppendedQueue(q)) == Owed(d, q) + (if TornActive(d) then [] else EventsIn(line))
      && OwedLines(d', q) == OwedLines(d', AppendedQueue(q)) == OwedLines(d, q) + (if TornActive(d) then 0 else 1)
      && (!TornActive(d) ==> Unread(d', AppendedQueue(q)) == Unread(d, FullQueue(d, q)) + [line])
  {
    var d' := AppendedDisk(d, line, now);
    AppendedWellFormed(d, q, line, now);
    var front, c := AppendedParts(d, q);
    var before, rest := Unread(d, front), Rest(d, c);
    AppendedLast(d, front, c, line, now);
    TornRest(d, c);
    assert FullQueue(d', AppendedQueue(q)) == AppendedQueue(q);
    EventsConcat(before, rest);
    EventsConcat(before, Extended(rest, line));
    NonBlankConcat(before, rest);
    NonBlankConcat(before, Extended(rest, line));
    ExtendedCounts(rest, line);
    ConcatAssoc(Events(before), Events(rest), if TornActive(d) then [] else EventsIn(line));
    ConcatAssoc(before, rest, [line]);
  }

  /** The unread part of the active file ends as the file does. */
  lemma TornRest(d: Disk, c: Cursor)
    requires c.path == Active && c.off <= |ActiveLines(d)| && (TornActive(d) ==> c.off < |ActiveLines(d)|)
    ensures TornEnd(Rest(d, c)) <==> TornActive(d)
  {
  }

  lemma AppendedLast(d: Disk, front: seq<Cursor>, c: Cursor, line: Line, now: real)
    requires c.path == Active && WellFormed(d, front) && forall i :: 0 <= i < |front| ==> front[i].path != Active
    requires c.off <= |ActiveLines(d)| && (TornActive(d) ==> c.off < |ActiveLines(d)|)
    ensures Unread(AppendedDisk(d, line, now), front + [c]) == Unread(d, front) + Extended(Rest(d, c), line)
  {
    var d' := AppendedDisk(d, line, now);
    assert Unread(d', front + [c]) == Unread(d', front) + Rest(d', c) by {
      UnreadConcat(d', front, [c]);
      UnreadSingle(d', c);
    }
    assert Unread(d', front) == Unread(d, front) by {
      UnreadFrame(d, d', front);
    }
    ExtendedRest(ActiveLines(d), c.off, line);
  }

  lemma ExtendedRest(lines: seq<Line>, off: nat, line: Line)
    requires off <= |lines| && (TornEnd(lines) ==> off < |lines|)
    ensures off <= |Extended(lines, line)| && Extended(lines, line)[off..] == Extended(lines[off..], line)
  {
    var rest := lines[off..];
    if TornEnd(lines) {
      var n := |lines| - 1;
      assert rest[..|rest| - 1] == lines[off..n] && rest[|rest| - 1] == lines[n];
      assert (lines[..n] + [Joined(lines[n], line)])[off..] == lines[off..n] + [Joined(lines[n], line)];
    } else {
      assert rest == [] || rest[|rest| - 1] == lines[|lines| - 1];
      assert (lines + [line])[off..] == rest + [line];
    }
  }

  /** The queue the append will leave, and what is unread of it now. */
  lemma AppendedParts(d: Disk, q: seq<Cursor>) returns (front: seq<Cursor>, c: Cursor)
    requires WellFormed(d, q) && Aligned(d, q)
    ensures AppendedQueue(q) == front + [c] && c.path == Active && WellFormed(d, front)
    ensures forall i :: 0 <= i < |front| ==> front[i].path != Active
    ensures c.off <= |ActiveLines(d)| && (TornActive(d) ==> c.off < |ActiveLines(d)|)
    ensures Unread(d, FullQueue(d, q)) == Unread(d, front) + Rest(d, c)
  {
    front, c := q, Cursor(Active, 0);
    if Queued(q, Active) {
      front, c := q[..|q| - 1], q[|q| - 1];
      assert q == front + [c];
      assert forall i :: 0 <= i < |front| ==> front[i] == q[i];
    }
    UnreadConcat(d, front, [c]);
    UnreadSingle(d, c);
    if Active !in d {
      assert Rest(d, c) == [] && Unread(d, front) + [] == Unread(d, front);
    }
  }

  lemma TornLines(lines: seq<Line>)
    requires TornEnd(lines)
    ensures |Events(lines)| < NonBlank(lines)
  {
    var front, last := lines[..|lines| - 1], lines[|lines| - 1];
    assert lines == front + [last] && [last][1..] == [];
    EventsConcat(front, [last]);
    NonBlankConcat(front, [last]);
    EventsAtMostNonBlank(front);
  }

  /** A count without broken lines means that no line is torn. */
  lemma TornIsBroken(d: Disk, q: seq<Cursor>)
    requires WellFormed(d, q) && Aligned(d, q) && TornActive(d)
    ensures |Owed(d, q)| < OwedLines(d, q)
  {
    var front, c := AppendedParts(d, q);
    var before, rest := Unread(d, front), Rest(d, c);
    assert |Events(rest)| < NonBlank(rest) by {
      TornRest(d, c);
      TornLines(rest);
    }
    EventsAtMostNonBlank(before);
    EventsConcat(before, rest);
    NonBlankConcat(before, rest);
  }

  lemma UnreadSingle(d: Disk, c: Cursor)
    ensures Unread(d, [c]) == Rest(d, c)
  {
    assert [c][1..] == [];
  }

  /** The queue after the active file was renamed. */
  function Renamed(q: seq<Cursor>, target: Path): (r: seq<Cursor>)
    ensures |r| == |q|
    ensures forall i :: 0 <= i < |q| ==> r[i] == if q[i].path == Active then Cursor(target, q[i].off) else q[i]
  {
    if q == [] then []
    else [if q[0].path == Active then Cursor(target, q[0].off) else q[0]] + Renamed(q[1..], target)
  }

  function Moved(d: Disk, target: Path): Disk
    requires Active in d
  {
    (d - {Active})[target := d[Active]]
  }

  /** Rotation moves lines between files without changing what is unread. */
  lemma {:induction false} RenamedUnread(d: Disk, q: seq<Cursor>, target: Path)
    requires Active in d && target !in d
    requires forall i :: 0 <= i < |q| ==> q[i].path in d
    ensures Unread(Moved(d, target), Renamed(q, target)) == Unread(d, q)
    ensures forall lost :: target !in lost && Active !in lost ==> Size(Moved(d, target), Renamed(q, target), lost) == Size(d, q, lost)
  {
    if q != [] {
      RenamedUnread(d, q[1..], target);
      assert Renamed(q, target)[1..] == Renamed(q[1..], target);
    }
  }

  lemma RenamedWellFormed(d: Disk, q: seq<Cursor>, target: Path)
    requires WellFormed(d, q) && Active in d && target !in d
    ensures WellFormed(Moved(d, target), Renamed(q, target))
    ensures !Queued(Renamed(q, target), Active)
  {
  }

  // ---- What a buffer owes, through retention and rotation ----

  function Orphan(d: Disk, q: seq<Cursor>): seq<Line> {
    if Active in d && !Queued(q, Active) then d[Active].lines else []
  }

  lemma FullUnread(d: Disk, q: seq<Cursor>)
    ensures Unread(d, FullQueue(d, q)) == Unread(d, q) + Orphan(d, q)
    ensures Owed(d, q) == Events(Unread(d, q)) + Events(Orphan(d, q))
    ensures NonBlank(Unread(d, FullQueue(d, q))) == NonBlank(Unread(d, q)) + NonBlank(Orphan(d, q))
  {
    UnreadConcat(d, q, [Cursor(Active, 0)]);
    UnreadSingle(d, Cursor(Active, 0));
    assert Unread(d, FullQueue(d, q)) == Unread(d, q) + Orphan(d, q);
    EventsConcat(Unread(d, q), Orphan(d, q));
    NonBlankConcat(Unread(d, q), Orphan(d, q));
  }

  /** Uncounted lines of dropped segments only make the cached count too high. */
  lemma {:induction false} SubqueueUncounted(d: Disk, a: seq<Cursor>, q: seq<Cursor>, lost: set<Path>)
    requires IsSubseq(a, q)
    ensures Count(d, q, lost) + NonBlank(Unread(d, a)) <= NonBlank(Unread(d, q)) + Count(d, a, lost)
    decreases |q|
  {
    if q == [] {
    } else {
      NonBlankConcat(Rest(d, q[0]), Unread(d, q[1..]));
      if a == [] {
        SubqueueUncounted(d, [], q[1..], lost);
      } else if a[0] == q[0] && IsSubseq(a[1..], q[1..]) {
        SubqueueUncounted(d, a[1..], q[1..], lost);
        NonBlankConcat(Rest(d, a[0]), Unread(d, a[1..]));
      } else {
        SubqueueUncounted(d, a, q[1..], lost);
      }
    }
  }

  /** The active file was in the queue `q0`, is not in the queue of `s`, and is still there: the next `put` will queue it
      from its first line. */
  ghost predicate Revived(q0: seq<Cursor>, s: Snapshot) {
    Queued(q0, Active) && Active in s.disk && !Queued(s.queue, Active)
  }

  /** Retention leaves the active file unqueued on the disk only if it dropped it and could not remove it. */
  lemma PrunedOrphan(s0: Snapshot, s: Snapshot, io: Faults)
    requires WellFormed(s0.disk, s0.queue)
    requires Pruned(s0, s, io)
    ensures Unread(s.disk, s.queue) == Unread(s0.disk, s.queue)
    ensures !Revived(s0.queue, s) ==> Orphan(s.disk, s.queue) == Orphan(s0.disk, s0.queue)
    ensures Revived(s0.queue, s) ==>
      Active in io.stuck && Active in s0.disk && Orphan(s.disk, s.queue) == s.disk[Active].lines == s0.disk[Active].lines
  {
    PrunedWellFormed(s0, s, io);
    UnreadFrame(s0.disk, s.disk, s.queue);
    SubqueueWellFormed(s0.disk, s.queue, s0.queue);
    if Queued(s.queue, Active) {
      var i :| 0 <= i < |s.queue| && s.queue[i].path == Active;
      assert s.queue[i] in s0.queue;
    } else {
      assert Active !in Paths(s.queue);
      if Queued(s0.queue, Active) {
        assert Active in Paths(s0.queue);
      }
    }
  }

  /** Retention keeps the order of what is owed, and every event it throws away is counted; a revived active file is owed
      again as a whole. */
  lemma PrunedOwed(s0: Snapshot, s: Snapshot, io: Faults)
    requires WellFormed(s0.disk, s0.queue)
    requires Pruned(s0, s, io)
    ensures !Revived(s0.queue, s) ==>
      && IsSubseq(Owed(s.disk, s.queue), Owed(s0.disk, s0.queue))
      && |Owed(s.disk, s.queue)| + s.dropped == |Owed(s0.disk, s0.queue)| + s0.dropped
    ensures Revived(s0.queue, s) ==>
      && Owed(s.disk, s.queue) == Events(Unread(s.disk, s.queue)) + Events(s.disk[Active].lines)
      && |Owed(s.disk, s.queue)| + s.dropped == |Owed(s0.disk, s0.queue)| + s0.dropped + |Events(s.disk[Active].lines)|
  {
    PrunedOrphan(s0, s, io);
    FullUnread(s.disk, s.queue);
    FullUnread(s0.disk, s0.queue);
    SubqueueUnread(s0.disk, s.queue, s0.queue, io.lost);
    var orphan := Events(Orphan(s.disk, s.queue));
    SubseqRefl(orphan);
    SubseqConcat(Events(Unread(s0.disk, s.queue)), Events(Unread(s0.disk, s0.queue)), orphan, orphan);
  }

  /** Retention keeps the cached count an upper bound, and an exact one exact when nothing failed. */
  lemma PrunedPending(s0: Snapshot, s: Snapshot, io: Faults)
    requires WellFormed(s0.disk, s0.queue) && Pruned(s0, s, io)
    requires !Revived(s0.queue, s)
    requires OwedLines(s0.disk, s0.queue) <= s0.pending
    ensures OwedLines(s.disk, s.queue) <= s.pending
    ensures io.lost == {} && OwedLines(s0.disk, s0.queue) == s0.pending ==> OwedLines(s.disk, s.queue) == s.pending
    ensures OwedLines(s.disk, s.queue) - |Owed(s.disk, s.queue)|
         <= OwedLines(s0.disk, s0.queue) - |Owed(s0.disk, s0.queue)|
  {
    PrunedOrphan(s0, s, io);
    PrunedBroken(s0, s, io);
    FullUnread(s.disk, s.queue);
    FullUnread(s0.disk, s0.queue);
    SubqueueUncounted(s0.disk, s.queue, s0.queue, io.lost);
    SubqueueUnread(s0.disk, s.queue, s0.queue, io.lost);
    CountIsNonBlank(s0.disk, s.queue);
    CountIsNonBlank(s0.disk, s0.queue);
  }

  /** No broken line is owed that was not owed before. */
  lemma PrunedBroken(s0: Snapshot, s: Snapshot, io: Faults)
    requires WellFormed(s0.disk, s0.queue) && Pruned(s0, s, io) && !Revived(s0.queue, s)
    ensures OwedLines(s.disk, s.queue) - |Owed(s.disk, s.queue)|
         <= OwedLines(s0.disk, s0.queue) - |Owed(s0.disk, s0.queue)|
  {
    PrunedOrphan(s0, s, io);
    FullUnread(s.disk, s.queue);
    FullUnread(s0.disk, s0.queue);
    SubqueueGarbage(s0.disk, s.queue, s0.queue);
  }

  /** Dropping segments cannot add broken lines. */
  lemma {:induction false} SubqueueGarbage(d: Disk, a: seq<Cursor>, q: seq<Cursor>)
    requires IsSubseq(a, q)
    ensures NonBlank(Unread(d, a)) - |Events(Unread(d, a))| <= NonBlank(Unread(d, q)) - |Events(Unread(d, q))|
    decreases |q|
  {
    if q == [] {
    } else {
      var rest := Rest(d, q[0]);
      NonBlankConcat(rest, Unread(d, q[1..]));
      EventsConcat(rest, Unread(d, q[1..]));
      EventsAtMostNonBlank(rest);
      if a == [] {
        SubqueueGarbage(d, [], q[1..]);
      } else if a[0] == q[0] && IsSubseq(a[1..], q[1..]) {
        SubqueueGarbage(d, a[1..], q[1..]);
        NonBlankConcat(rest, Unread(d, a[1..]));
        EventsConcat(rest, Unread(d, a[1..]));
      } else {
        SubqueueGarbage(d, a, q[1..]);
      }
    }
  }

  /** Rotation leaves what is in the queue alone; an active file that was not queued is stranded. */
  lemma RotatedOwed(d: Disk, q: seq<Cursor>, target: Path)
    requires WellFormed(d, q) && Active in d && target !in d
    ensures Orphan(Moved(d, target), Renamed(q, target)) == []
    ensures Queued(q, Active) ==>
      Unread(Moved(d, target), FullQueue(Moved(d, target), Renamed(q, target))) == Unread(d, FullQueue(d, q))
    ensures Owed(Moved(d, target), Renamed(q, target)) == Events(Unread(d, q))
    ensures IsSubseq(Owed(Moved(d, target), Renamed(q, target)), Owed(d, q))
    ensures NonBlank(Unread(Moved(d, target), FullQueue(Moved(d, target), Renamed(q, target))))
         <= NonBlank(Unread(d, FullQueue(d, q)))
  {
    RenamedUnread(d, q, target);
    RenamedWellFormed(d, q, target);
    FullUnread(d, q);
    FullUnread(Moved(d, target), Renamed(q, target));
    SubseqSuffix(Events(Unread(d, q)), Events(Orphan(d, q)));
  }
}
