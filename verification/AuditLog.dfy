/** The hash-chained audit log. The hash is a parameter. */
module AuditLogs {

  const GENESIS := "genesis-0000-" + "0000000000000000000000000000000000000000"

  /** `canonical` is the record's canonical text, without the two links. */
  datatype Entry = Entry(canonical: string, prev: string, hash: string)

  datatype Line = Blank | Whole(entry: Entry) | Damaged

  /** `torn`: the last line lacks its line feed. */
  datatype File = File(lines: seq<Line>, torn: bool)

  function Entries(lines: seq<Line>): seq<Entry> {
    if lines == [] then []
    else
      var last := lines[|lines| - 1];
      Entries(lines[..|lines| - 1]) + if last.Whole? then [last.entry] else []
  }

  function Digest(H: string -> string, prev: string, canonical: string): string {
    H(prev + "|" + canonical)
  }

  function LastHash(log: seq<Entry>): string {
    if log == [] then GENESIS else log[|log| - 1].hash
  }

  /** Every entry carries the hash of the one before, and its own. */
  ghost predicate Linked(H: string -> string, log: seq<Entry>) {
    log == [] ||
    (var before, last := log[..|log| - 1], log[|log| - 1];
     Linked(H, before) && last.prev == LastHash(before) && last.hash == Digest(H, last.prev, last.canonical))
  }

  /** What is asked of the hash: hexadecimal digits, and no collision. */
  ghost predicate Ideal(H: string -> string) {
    && (forall x, y :: H(x) == H(y) ==> x == y)
    && (forall x :: H(x) != GENESIS && H(x) != "" && '|' !in H(x))
  }

  lemma GenesisHasNoBar()
    ensures '|' !in GENESIS
  {
    assert '|' !in "genesis-0000-";
    assert '|' !in "0000000000000000000000000000000000000000";
  }

  lemma LinkedAppend(H: string -> string, log: seq<Entry>, e: Entry)
    ensures Linked(H, log + [e]) <==>
      Linked(H, log) && e.prev == LastHash(log) && e.hash == Digest(H, e.prev, e.canonical)
  {
    assert (log + [e])[..|log|] == log;
  }

  lemma FirstBar(p: string, a: string)
    requires '|' !in p
    ensures var s := p + "|" + a;
      s[|p|] == '|' && (forall k :: 0 <= k < |p| ==> s[k] != '|') && s[..|p|] == p && s[|p| + 1..] == a
  {
    var s := p + "|" + a;
    assert forall k :: 0 <= k < |p| ==> s[k] == p[k];
  }

  /** Where the link ends and the text begins can be read off, because no link holds a bar. */
  lemma SplitAtBar(p: string, q: string, a: string, b: string)
    requires p + "|" + a == q + "|" + b && '|' !in p && '|' !in q
    ensures p == q && a == b
  {
    FirstBar(p, a);
    FirstBar(q, b);
  }

  lemma LastHashHasNoBar(H: string -> string, log: seq<Entry>)
    requires Ideal(H) && Linked(H, log)
    ensures '|' !in LastHash(log) && (LastHash(log) == GENESIS <==> log == [])
  {
    if log == [] {
      GenesisHasNoBar();
    } else {
      assert log[|log| - 1].hash == Digest(H, log[|log| - 1].prev, log[|log| - 1].canonical);
    }
  }

  lemma LastLink(H: string -> string, log: seq<Entry>, e: Entry)
    requires Ideal(H) && Linked(H, log + [e])
    ensures Linked(H, log) && e.prev == LastHash(log) && '|' !in e.prev
    ensures e.hash == Digest(H, e.prev, e.canonical) == LastHash(log + [e])
  {
    LinkedAppend(H, log, e);
    LastHashHasNoBar(H, log);
  }

  lemma SameLastEntry(H: string -> string, a: seq<Entry>, x: Entry, b: seq<Entry>, y: Entry)
    requires Ideal(H) && Linked(H, a + [x]) && Linked(H, b + [y]) && x.hash == y.hash
    ensures x == y && LastHash(a) == LastHash(b) && Linked(H, a) && Linked(H, b)
  {
    LastLink(H, a, x);
    LastLink(H, b, y);
    SameDigest(H, x.prev, x.canonical, y.prev, y.canonical);
  }

  lemma SameDigest(H: string -> string, p: string, a: string, q: string, b: string)
    requires Ideal(H) && '|' !in p && '|' !in q && Digest(H, p, a) == Digest(H, q, b)
    ensures p == q && a == b
  {
    SplitAtBar(p, q, a, b);
  }

  lemma LastOff(log: seq<Entry>) returns (before: seq<Entry>, last: Entry)
    requires log != []
    ensures log == before + [last] && LastHash(log) == last.hash
  {
    before, last := log[..|log| - 1], log[|log| - 1];
  }

  lemma EmptyTogether(H: string -> string, a: seq<Entry>, b: seq<Entry>)
    requires Ideal(H) && Linked(H, a) && Linked(H, b) && LastHash(a) == LastHash(b)
    ensures a == [] <==> b == []
  {
    LastHashHasNoBar(H, a);
    LastHashHasNoBar(H, b);
  }

  /** Two well-linked logs that end in the same hash are the same log: no entry can be edited, removed, added or moved
      without changing the last hash. */
  lemma {:induction false} SameTailSameLog(H: string -> string, a: seq<Entry>, b: seq<Entry>)
    requires Ideal(H) && Linked(H, a) && Linked(H, b) && LastHash(a) == LastHash(b)
    ensures a == b
    decreases |a|
  {
    EmptyTogether(H, a, b);
    if a != [] {
      var a', x := LastOff(a);
      var b', y := LastOff(b);
      SameLastEntry(H, a', x, b', y);
      SameTailSameLog(H, a', b');
    }
  }

  // ---- The file ----

  /** `_load_tail_hash` */
  function TailHash(lines: seq<Line>): (hash: string)
    ensures hash != ""
  {
    if lines == [] then GENESIS
    else
      match lines[|lines| - 1]
      case Blank => TailHash(lines[..|lines| - 1])
      case Whole(e) => if e.hash == "" then GENESIS else e.hash
      case Damaged => GENESIS
  }

  function NewEntry(H: string -> string, prev: string, canonical: string): Entry {
    Entry(canonical, prev, Digest(H, prev, canonical))
  }

  /** A line written at the end of the file runs into a torn one. */
  function Written(file: File, line: Line): File {
    if file.torn && file.lines != [] then File(file.lines[..|file.lines| - 1] + [Damaged], false)
    else File(file.lines + [line], false)
  }

  /** A file this log has written without a crash. */
  ghost predicate Intact(H: string -> string, file: File) {
    !file.torn && (forall i :: 0 <= i < |file.lines| ==> !file.lines[i].Damaged?) && Linked(H, Entries(file.lines))
  }

  lemma {:induction false} TailOfIntact(H: string -> string, file: File)
    requires Ideal(H) && Intact(H, file)
    ensures TailHash(file.lines) == LastHash(Entries(file.lines))
    decreases |file.lines|
  {
    var n := |file.lines|;
    if n > 0 {
      var last := file.lines[n - 1];
      var before := Entries(file.lines[..n - 1]);
      if last.Whole? {
        var log := Entries(file.lines);
        assert log[|log| - 1] == last.entry;
        assert last.entry.hash == Digest(H, last.entry.prev, last.entry.canonical);
      } else {
        assert Entries(file.lines) == before;
        TailOfIntact(H, File(file.lines[..n - 1], false));
      }
    }
  }

  class AuditLog {
    var file: File
    var prevHash: string

    /** `__init__` on the file it finds. */
    constructor (file: File)
      ensures this.file == file && prevHash == TailHash(file.lines)
      ensures file.lines == [] ==> prevHash == "genesis-0000-" + "0000000000000000000000000000000000000000"
    {
      this.file := file;
      prevHash := TailHash(file.lines);
    }

    /** In step with its file. */
    ghost predicate Valid(H: string -> string)
      reads this
    {
      Intact(H, file) && prevHash == LastHash(Entries(file.lines))
    }

    /** `append`: one more entry at the end of the chain. */
    method Append(H: string -> string, canonical: string) returns (entry: Entry)
      modifies this
      ensures entry == NewEntry(H, old(prevHash), canonical)
      ensures file == Written(old(file), Whole(entry)) && prevHash == entry.hash
      ensures old(Valid(H)) ==> Valid(H) && Entries(file.lines) == Entries(old(file.lines)) + [entry]
    {
      var digest := H(prevHash + "|" + canonical);
      entry := Entry(canonical, prevHash, digest);
      ghost var lines := file.lines;
      LinkIfIntact(H, file, prevHash, entry);
      file := Written(file, Whole(entry));
      prevHash := digest;
    }
  }

  lemma LinkIfIntact(H: string -> string, file: File, prev: string, entry: Entry)
    requires entry.prev == prev && entry.hash == Digest(H, prev, entry.canonical)
    ensures Intact(H, file) && prev == LastHash(Entries(file.lines)) ==>
      && Intact(H, Written(file, Whole(entry)))
      && Entries(Written(file, Whole(entry)).lines) == Entries(file.lines) + [entry]
  {
    if Intact(H, file) && prev == LastHash(Entries(file.lines)) {
      assert (file.lines + [Whole(entry)])[..|file.lines|] == file.lines;
      LinkedAppend(H, Entries(file.lines), entry);
    }
  }

  // ---- Runs ----

  datatype Step = Append(canonical: string) | Reopen

  function Do(H: string -> string, file: File, prev: string, steps: seq<Step>): (File, string)
    decreases |steps|
  {
    if steps == [] then (file, prev)
    else
      match steps[0]
      case Append(c) => Do(H, Written(file, Whole(NewEntry(H, prev, c))), Digest(H, prev, c), steps[1..])
      case Reopen => Do(H, file, TailHash(file.lines), steps[1..])
  }

  function Texts(steps: seq<Step>): seq<string> {
    if steps == [] then []
    else (if steps[0].Append? then [steps[0].canonical] else []) + Texts(steps[1..])
  }

  function Canonicals(log: seq<Entry>): seq<string> {
    seq(|log|, i requires 0 <= i < |log| => log[i].canonical)
  }

  /** The log is one chain and the process is in step with it. */
  ghost predicate InStep(H: string -> string, file: File, prev: string) {
    Intact(H, file) && prev == LastHash(Entries(file.lines))
  }

  lemma CanonicalsAppend(log: seq<Entry>, e: Entry, texts: seq<string>)
    ensures Canonicals(log + [e]) + texts == Canonicals(log) + ([e.canonical] + texts)
  {
    assert Canonicals(log + [e]) == Canonicals(log) + [e.canonical];
  }

  /** Any run of appends and reopenings leaves one chain from GENESIS that holds every text appended, in order. */
  lemma {:induction false} OneChain(H: string -> string, file: File, prev: string, steps: seq<Step>)
    requires Ideal(H) && InStep(H, file, prev)
    ensures InStep(H, Do(H, file, prev, steps).0, Do(H, file, prev, steps).1)
    ensures Canonicals(Entries(Do(H, file, prev, steps).0.lines)) == Canonicals(Entries(file.lines)) + Texts(steps)
    decreases |steps|
  {
    if steps != [] {
      if steps[0].Append? {
        var e := NewEntry(H, prev, steps[0].canonical);
        LinkIfIntact(H, file, prev, e);
        assert Do(H, file, prev, steps) == Do(H, Written(file, Whole(e)), e.hash, steps[1..]);
        OneChain(H, Written(file, Whole(e)), e.hash, steps[1..]);
        CanonicalsAppend(Entries(file.lines), e, Texts(steps[1..]));
      } else {
        TailOfIntact(H, file);
        OneChain(H, file, prev, steps[1..]);
        assert Texts(steps) == Texts(steps[1..]);
      }
    }
  }

  lemma EntriesAppend(lines: seq<Line>, line: Line)
    ensures Entries(lines + [line]) == Entries(lines) + if line.Whole? then [line.entry] else []
  {
    assert (lines + [line])[..|lines|] == lines;
  }

  /** After a write that was cut short, the next process starts again from GENESIS, its first entry is lost in the torn
      line, and its second is linked only if the log had held exactly that first entry. */
  lemma TornWriteBreaksChain(H: string -> string, lines: seq<Line>, first: string, second: string)
    requires Ideal(H) && Intact(H, File(lines, false))
    ensures var torn := File(lines + [Damaged], true);
      var (after, _) := Do(H, torn, TailHash(torn.lines), [Append(first), Append(second)]);
      && Entries(after.lines) == Entries(lines) + [NewEntry(H, Digest(H, GENESIS, first), second)]
      && (Linked(H, Entries(after.lines)) <==> Entries(lines) == [NewEntry(H, GENESIS, first)])
  {
    var torn := File(lines + [Damaged], true);
    var (after, _) := Do(H, torn, TailHash(torn.lines), [Append(first), Append(second)]);
    var only := NewEntry(H, GENESIS, first);
    var e := NewEntry(H, only.hash, second);
    assert after.lines == lines + [Damaged] + [Whole(e)] by {
      TornRun(H, lines, first, second);
    }
    EntriesAppend(lines, Damaged);
    EntriesAppend(lines + [Damaged], Whole(e));
    LinksAfterOnly(H, Entries(lines), only, e);
  }

  lemma TornRun(H: string -> string, lines: seq<Line>, first: string, second: string)
    ensures var torn := File(lines + [Damaged], true);
      var e := NewEntry(H, Digest(H, GENESIS, first), second);
      Do(H, torn, TailHash(torn.lines), [Append(first), Append(second)]).0
      == File(lines + [Damaged] + [Whole(e)], false)
  {
    var torn := File(lines + [Damaged], true);
    var only := NewEntry(H, GENESIS, first);
    var one := Written(torn, Whole(only));
    assert torn.lines[..|torn.lines| - 1] == lines;
    assert one == File(lines + [Damaged], false);
    assert [Append(first), Append(second)][1..] == [Append(second)] && [Append(second)][1..] == [];
    assert Do(H, torn, GENESIS, [Append(first), Append(second)]) == Do(H, one, only.hash, [Append(second)]);
    var e := NewEntry(H, only.hash, second);
    assert Do(H, one, only.hash, [Append(second)]) == Do(H, Written(one, Whole(e)), e.hash, []);
  }

  lemma LinksAfterOnly(H: string -> string, log: seq<Entry>, only: Entry, e: Entry)
    requires Ideal(H) && Linked(H, log)
    requires only == NewEntry(H, GENESIS, only.canonical) && e == NewEntry(H, only.hash, e.canonical)
    ensures Linked(H, log + [e]) <==> log == [only]
  {
    LinkedAppend(H, log, e);
    LinkedAppend(H, [], only);
    assert [] + [only] == [only];
    if LastHash(log) == only.hash {
      SameTailSameLog(H, log, [only]);
    }
  }

  /** If the write lost just its line feed, the next process goes on from the right hash, but its first entry runs into the
      last one and both are lost; the second is never linked. */
  lemma LostLineFeedBreaksChain(H: string -> string, lines: seq<Line>, e: Entry, first: string, second: string)
    requires Ideal(H) && Intact(H, File(lines + [Whole(e)], false))
    ensures var torn := File(lines + [Whole(e)], true);
      var after := lines + [Damaged] + [Whole(NewEntry(H, Digest(H, e.hash, first), second))];
      && Do(H, torn, TailHash(torn.lines), [Append(first), Append(second)]).0 == File(after, false)
      && Entries(after) == Entries(lines) + [NewEntry(H, Digest(H, e.hash, first), second)]
      && !Linked(H, Entries(after))
  {
    LostEntry(H, lines, e, first, second);
    LostRun(H, lines, e, first, second);
  }

  lemma LostEntry(H: string -> string, lines: seq<Line>, e: Entry, first: string, second: string)
    requires Ideal(H) && Linked(H, Entries(lines + [Whole(e)]))
    ensures var last := NewEntry(H, Digest(H, e.hash, first), second);
      var after := lines + [Damaged] + [Whole(last)];
      e.hash != "" && Entries(after) == Entries(lines) + [last] && !Linked(H, Entries(after))
  {
    var last := NewEntry(H, Digest(H, e.hash, first), second);
    EntriesAppend(lines, Whole(e));
    EntriesAppend(lines, Damaged);
    EntriesAppend(lines + [Damaged], Whole(last));
    NeverLinked(H, Entries(lines), e, first, last);
  }

  lemma NeverLinked(H: string -> string, log: seq<Entry>, e: Entry, first: string, last: Entry)
    requires Ideal(H) && Linked(H, log + [e]) && last.prev == Digest(H, e.hash, first)
    ensures e.hash != "" && !Linked(H, log + [last])
  {
    LastLink(H, log, e);
    LinkedAppend(H, log, last);
    NoReturn(H, log, e, NewEntry(H, e.hash, first));
  }

  lemma LostRun(H: string -> string, lines: seq<Line>, e: Entry, first: string, second: string)
    requires e.hash != ""
    ensures var torn := File(lines + [Whole(e)], true);
      Do(H, torn, TailHash(torn.lines), [Append(first), Append(second)]).0
      == File(lines + [Damaged] + [Whole(NewEntry(H, Digest(H, e.hash, first), second))], false)
  {
    var torn := File(lines + [Whole(e)], true);
    var next := NewEntry(H, e.hash, first);
    var last := NewEntry(H, next.hash, second);
    var one := Written(torn, Whole(next));
    assert torn.lines[..|torn.lines| - 1] == lines;
    assert one == File(lines + [Damaged], false);
    assert [Append(first), Append(second)][1..] == [Append(second)] && [Append(second)][1..] == [];
    assert Do(H, torn, e.hash, [Append(first), Append(second)]) == Do(H, one, next.hash, [Append(second)]);
    assert Do(H, one, next.hash, [Append(second)]) == Do(H, Written(one, Whole(last)), last.hash, []);
  }

  /** A chain does not come back to the hash that follows its end by two. */
  lemma NoReturn(H: string -> string, log: seq<Entry>, e: Entry, next: Entry)
    requires Ideal(H) && Linked(H, log + [e]) && next == NewEntry(H, e.hash, next.canonical)
    ensures LastHash(log) != next.hash
  {
    LastLink(H, log, e);
    LinkedAppend(H, log + [e], next);
    if LastHash(log) == next.hash {
      SameTailSameLog(H, log, log + [e] + [next]);
    }
  }
}
