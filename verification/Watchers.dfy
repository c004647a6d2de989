/** The watchers that compare one snapshot with the next: files, services. */
module Watchers {
  import opened Sequences

  type Key = string

  /** `same`: no change worth an event. `show`: the part of a record an event carries. */
  datatype Lens<!V, !W> = Lens(same: (V, V) -> bool, show: V -> W)

  /** Records that count as the same show the same. */
  ghost predicate Fair<V(!new), W>(lens: Lens<V, W>) {
    forall a, b :: lens.same(a, b) ==> lens.show(a) == lens.show(b)
  }

  /** And only those. */
  ghost predicate Exact<V(!new), W>(lens: Lens<V, W>) {
    forall a, b :: lens.same(a, b) <==> lens.show(a) == lens.show(b)
  }

  datatype Change<W> = Created(key: Key, now: W) | Deleted(key: Key, was: W) | Modified(key: Key, before: W, now: W)

  function Shown<V, W>(lens: Lens<V, W>, m: map<Key, V>): map<Key, W> {
    map k | k in m :: lens.show(m[k])
  }

  /** What a reader of the events knows after one more. */
  function Apply<W>(known: map<Key, W>, e: Change<W>): map<Key, W> {
    match e
    case Created(k, now) => known[k := now]
    case Deleted(k, _) => known - {k}
    case Modified(k, _, now) => known[k := now]
  }

  function Replay<W>(known: map<Key, W>, events: seq<Change<W>>): map<Key, W> {
    if events == [] then known
    else Apply(Replay(known, events[..|events| - 1]), events[|events| - 1])
  }

  predicate Differs<V, W>(lens: Lens<V, W>, prev: map<Key, V>, next: map<Key, V>, k: Key) {
    (k in prev) != (k in next) || (k in prev && k in next && !lens.same(prev[k], next[k]))
  }

  /** The event for a key that changed. */
  function EventOf<V, W>(lens: Lens<V, W>, prev: map<Key, V>, next: map<Key, V>, k: Key): Change<W>
    requires Differs(lens, prev, next, k)
  {
    if k !in prev then Created(k, lens.show(next[k]))
    else if k !in next then Deleted(k, lens.show(prev[k]))
    else Modified(k, lens.show(prev[k]), lens.show(next[k]))
  }

  /** What an event must be, in the terms of the two snapshots. */
  ghost predicate Tells<V, W>(lens: Lens<V, W>, prev: map<Key, V>, next: map<Key, V>, e: Change<W>) {
    match e
    case Created(k, now) => k !in prev && k in next && now == lens.show(next[k])
    case Deleted(k, was) => k in prev && k !in next && was == lens.show(prev[k])
    case Modified(k, before, now) =>
      && k in prev && k in next && !lens.same(prev[k], next[k])
      && before == lens.show(prev[k]) && now == lens.show(next[k])
  }

  /** Every event tells a change, no key has two, and the created come first, then the deleted, then the modified. */
  ghost predicate AllTell<V, W>(lens: Lens<V, W>, prev: map<Key, V>, next: map<Key, V>, events: seq<Change<W>>) {
    && (forall i :: 0 <= i < |events| ==> Tells(lens, prev, next, events[i]))
    && (forall i, j :: 0 <= i < j < |events| ==> events[i].key != events[j].key)
    && (forall i, j :: 0 <= i < j < |events| ==>
      && (events[j].Created? ==> events[i].Created?)
      && (events[i].Modified? ==> events[j].Modified?))
  }

  /** Every key that came, went, or has a record that is not the same has an event. */
  ghost predicate AllTold<V, W>(lens: Lens<V, W>, prev: map<Key, V>, next: map<Key, V>, events: seq<Change<W>>) {
    && (forall k :: k in next && k !in prev ==> ToldOf(events, k))
    && (forall k :: k in prev && k !in next ==> ToldOf(events, k))
    && (forall k :: k in prev && k in next && !lens.same(prev[k], next[k]) ==> ToldOf(events, k))
  }

  ghost predicate ToldOf<W>(events: seq<Change<W>>, k: Key) {
    exists i :: 0 <= i < |events| && events[i].key == k
  }

  /** The changes between two snapshots, by key. */
  function Changes<V, W>(lens: Lens<V, W>, prev: map<Key, V>, next: map<Key, V>): map<Key, Change<W>> {
    map k | k in prev.Keys + next.Keys && Differs(lens, prev, next, k) :: EventOf(lens, prev, next, k)
  }

  /** The events report these keys, each once and rightly. */
  ghost predicate Reports<W>(changes: map<Key, Change<W>>, events: seq<Change<W>>, keys: set<Key>)
    decreases |events|
  {
    if events == [] then keys == {}
    else
      var last := events[|events| - 1];
      && last.key in keys && last.key in changes && last == changes[last.key]
      && Reports(changes, events[..|events| - 1], keys - {last.key})
  }

  lemma ReportsOne<W>(changes: map<Key, Change<W>>, events: seq<Change<W>>, keys: set<Key>, k: Key)
    requires Reports(changes, events, keys) && k !in keys && k in changes && changes[k].key == k
    ensures Reports(changes, events + [changes[k]], keys + {k})
  {
    var more := events + [changes[k]];
    assert more[..|more| - 1] == events && keys + {k} - {k} == keys;
  }

  /** A report has one event for each of its keys, and they did change. */
  lemma {:induction false} ReportsSize<W>(changes: map<Key, Change<W>>, events: seq<Change<W>>, keys: set<Key>)
    requires Reports(changes, events, keys)
    ensures keys <= changes.Keys && |keys| == |events|
    decreases |events|
  {
    if events != [] {
      ReportsSize(changes, events[..|events| - 1], keys - {events[|events| - 1].key});
    }
  }

  lemma {:induction false} ReportsListed<W>(changes: map<Key, Change<W>>, events: seq<Change<W>>, keys: set<Key>)
    requires Reports(changes, events, keys)
    ensures forall i :: 0 <= i < |events| ==>
      events[i].key in keys && events[i].key in changes && events[i] == changes[events[i].key]
    ensures forall i, j :: 0 <= i < j < |events| ==> events[i].key != events[j].key
    decreases |events|
  {
    if events != [] {
      var before := events[..|events| - 1];
      ReportsListed(changes, before, keys - {events[|events| - 1].key});
      assert forall i :: 0 <= i < |before| ==> before[i] == events[i];
    }
  }

  /** A report has an event for each of its keys. */
  lemma {:induction false} ReportsTold<W>(changes: map<Key, Change<W>>, events: seq<Change<W>>, keys: set<Key>)
    requires Reports(changes, events, keys)
    ensures forall k :: k in keys ==> ToldOf(events, k)
    decreases |events|
  {
    if events != [] {
      var n := |events| - 1;
      ReportsTold(changes, events[..n], keys - {events[n].key});
      forall k | k in keys ensures ToldOf(events, k) {
        if k == events[n].key {
          assert events[n].key == k;
        } else {
          assert ToldOf(events[..n], k);
          var i :| 0 <= i < n && events[..n][i].key == k;
          assert events[i].key == k;
        }
      }
    }
  }

  /** A report of the changes tells them. */
  lemma ReportTells<V, W>(lens: Lens<V, W>, prev: map<Key, V>, next: map<Key, V>, events: seq<Change<W>>, keys: set<Key>,
                          a: nat, b: nat)
    requires Reports(Changes(lens, prev, next), events, keys) && a <= b <= |events|
    requires forall i :: 0 <= i < |events| ==>
      if i < a then events[i].key !in prev else if i < b then events[i].key !in next
      else events[i].key in prev && events[i].key in next
    ensures AllTell(lens, prev, next, events)
    ensures keys == Changes(lens, prev, next).Keys ==> AllTold(lens, prev, next, events)
  {
    ReportsListed(Changes(lens, prev, next), events, keys);
    forall i | 0 <= i < |events| ensures Tells(lens, prev, next, events[i]) {
      assert events[i] == Changes(lens, prev, next)[events[i].key];
    }
    if keys == Changes(lens, prev, next).Keys {
      ReportsTold(Changes(lens, prev, next), events, keys);
    }
  }

  /** The known state after the events: new for the reported keys, old for the others. */
  lemma {:induction false} ReplayAt<V, W>(lens: Lens<V, W>, prev: map<Key, V>, next: map<Key, V>, events: seq<Change<W>>,
                                          keys: set<Key>, k: Key)
    requires Reports(Changes(lens, prev, next), events, keys)
    ensures var known := Replay(Shown(lens, prev), events);
      var truth := Shown(lens, if k in keys then next else prev);
      (k in known <==> k in truth) && (k in known ==> known[k] == truth[k])
    decreases |events|
  {
    if events != [] {
      ReplayAt(lens, prev, next, events[..|events| - 1], keys - {events[|events| - 1].key}, k);
    }
  }

  /** Events for every change carry a reader from the old snapshot to the new one. */
  lemma ReplayAll<V(!new), W>(lens: Lens<V, W>, prev: map<Key, V>, next: map<Key, V>, events: seq<Change<W>>)
    requires Fair(lens) && Reports(Changes(lens, prev, next), events, Changes(lens, prev, next).Keys)
    ensures Replay(Shown(lens, prev), events) == Shown(lens, next)
  {
    var known := Replay(Shown(lens, prev), events);
    forall k ensures (k in known <==> k in next) && (k in known ==> known[k] == lens.show(next[k])) {
      ReplayAt(lens, prev, next, events, Changes(lens, prev, next).Keys, k);
      if k !in Changes(lens, prev, next).Keys && k in prev {
        assert !Differs(lens, prev, next, k);
      }
    }
    assert known.Keys == next.Keys;
  }

  /** Where only what shows counts, the events carry the reader there exactly when they leave no change out. */
  lemma ReplayIff<V(!new), W>(lens: Lens<V, W>, prev: map<Key, V>, next: map<Key, V>, events: seq<Change<W>>, keys: set<Key>)
    requires Exact(lens) && Reports(Changes(lens, prev, next), events, keys)
    ensures Replay(Shown(lens, prev), events) == Shown(lens, next) <==> keys == Changes(lens, prev, next).Keys
  {
    if keys == Changes(lens, prev, next).Keys {
      ReplayAll(lens, prev, next, events);
    } else {
      ReportsSize(Changes(lens, prev, next), events, keys);
      var k :| k in Changes(lens, prev, next).Keys && k !in keys;
      ReplayAt(lens, prev, next, events, keys, k);
      assert Shown(lens, next).Keys == next.Keys && Shown(lens, prev).Keys == prev.Keys;
    }
  }

  lemma {:induction false} ReplayConcat<W>(known: map<Key, W>, a: seq<Change<W>>, b: seq<Change<W>>)
    ensures Replay(known, a + b) == Replay(Replay(known, a), b)
    decreases |b|
  {
    if b == [] {
      assert a + b == a;
    } else {
      assert (a + b)[..|a + b| - 1] == a + b[..|b| - 1];
      ReplayConcat(known, a, b[..|b| - 1]);
    }
  }

  /** The three loops of a comparison: created, deleted, modified keys, at most `cap` events. */
  method Diff<V, W>(lens: Lens<V, W>, prev: map<Key, V>, next: map<Key, V>, cap: Option<nat>)
    returns (events: seq<Change<W>>, ghost keys: set<Key>)
    ensures AllTell(lens, prev, next, events)
    ensures cap.None? || |events| < cap.value ==> AllTold(lens, prev, next, events)
    ensures cap.Some? ==> |events| <= cap.value
    ensures Reports(Changes(lens, prev, next), events, keys)
    ensures Fits(lens, cap, prev, next) ==> keys == Changes(lens, prev, next).Keys && AllTold(lens, prev, next, events)
    ensures !Fits(lens, cap, prev, next) ==> |events| == cap.value
  {
    var added, removed, common := next.Keys - prev.Keys, prev.Keys - next.Keys, prev.Keys * next.Keys;
    var changes := Changes(lens, prev, next);
    assert changes.Keys <= added + removed + common;
    ghost var a, b;
    events, keys, a, b := DiffThrice(changes, added, removed, common, cap);
    ReportTells(lens, prev, next, events, keys, a, b);
    ReportsSize(changes, events, keys);
  }

  method DiffThrice<W>(changes: map<Key, Change<W>>, added: set<Key>, removed: set<Key>, common: set<Key>, cap: Option<nat>)
    returns (events: seq<Change<W>>, ghost keys: set<Key>, ghost a: nat, ghost b: nat)
    requires Keyed(changes)
    requires changes.Keys <= added + removed + common
    requires added !! removed && added !! common && removed !! common
    ensures Reports(changes, events, keys)
    ensures cap.None? || |changes| <= cap.value ==> keys == changes.Keys
    ensures cap.Some? && |changes| > cap.value ==> |events| == cap.value
    ensures cap.Some? ==> |events| <= cap.value
    ensures a <= b <= |events|
    ensures forall i :: 0 <= i < |events| ==>
      events[i].key in if i < a then added else if i < b then removed else common
  {
    var e1, d1 := DiffOver(changes, added, cap, [], {});
    var e2, d2 := DiffOver(changes, removed, cap, e1, d1);
    events, keys := DiffOver(changes, common, cap, e2, d2);
    a, b := |e1|, |e2|;
    Sections(e1, e2, events, added, removed, common);
    ReportsSize(changes, e1, d1);
    ReportsSize(changes, e2, d2);
    ReportsSize(changes, events, keys);
    AllReached(added, removed, common, changes.Keys, d1, d2, keys, |e1|, |e2|, |events|, cap);
    assert |changes.Keys| == |changes|;
  }

  lemma Sections<W>(e1: seq<Change<W>>, e2: seq<Change<W>>, e3: seq<Change<W>>, a: set<Key>, b: set<Key>, c: set<Key>)
    requires |e1| <= |e2| <= |e3| && e2[..|e1|] == e1 && e3[..|e2|] == e2
    requires forall i :: 0 <= i < |e1| ==> e1[i].key in a
    requires forall i :: |e1| <= i < |e2| ==> e2[i].key in b
    requires forall i :: |e2| <= i < |e3| ==> e3[i].key in c
    ensures forall i :: 0 <= i < |e3| ==> e3[i].key in if i < |e1| then a else if i < |e2| then b else c
  {
    forall i | 0 <= i < |e2| ensures e3[i] == e2[i] && (i < |e1| ==> e2[i] == e1[i]) {
      assert e3[..|e2|][i] == e3[i];
      if i < |e1| {
        assert e2[..|e1|][i] == e2[i];
      }
    }
  }

  ghost predicate Keyed<W>(changes: map<Key, Change<W>>) {
    forall k :: k in changes ==> changes[k].key == k
  }

  /** Three loops that reach their keys up to the cap reach everything up to the cap. */
  lemma AllReached(a: set<Key>, b: set<Key>, c: set<Key>, all: set<Key>, d1: set<Key>, d2: set<Key>, d3: set<Key>,
                   n1: nat, n2: nat, n3: nat, cap: Option<nat>)
    requires all <= a + b + c && |d1| == n1 && |d2| == n2 && |d3| == n3
    requires Reached(a, {}, d1, all, n1, cap) && Reached(b, d1, d2, all, n2, cap) && Reached(c, d2, d3, all, n3, cap)
    ensures d3 <= all
    ensures cap.None? || |all| <= cap.value ==> d3 == all
    ensures cap.Some? && |all| > cap.value ==> n3 == cap.value
  {
    SubsetSize(d1, d2);
    SubsetSize(d2, d3);
    SubsetSize(d3, all);
    assert d3 <= (a + b + c) * all;
    if d1 == a * all && d2 == d1 + b * all && d3 == d2 + c * all {
      assert d3 == all;
    }
  }

  /** The keys among `keys` that changed come after those done before, up to the cap. */
  ghost predicate Reached(keys: set<Key>, done: set<Key>, now: set<Key>, all: set<Key>, n: nat, cap: Option<nat>) {
    && done <= now <= done + keys * all
    && (cap.Some? ==> n <= cap.value)
    && ((cap.Some? && n == cap.value) || now == done + keys * all)
  }

  /** One of the loops. It stops at the cap; unchanged keys are passed over. */
  method DiffOver<W>(changes: map<Key, Change<W>>, keys: set<Key>, cap: Option<nat>, soFar: seq<Change<W>>, ghost done: set<Key>)
    returns (events: seq<Change<W>>, ghost now: set<Key>)
    requires Keyed(changes)
    requires Reports(changes, soFar, done) && done !! keys
    requires cap.Some? ==> |soFar| <= cap.value
    ensures Reports(changes, events, now)
    ensures Reached(keys, done, now, changes.Keys, |events|, cap)
    ensures |soFar| <= |events| && events[..|soFar|] == soFar
    ensures forall i :: |soFar| <= i < |events| ==> events[i].key in keys
  {
    events, now := soFar, done;
    var todo := keys;
    while todo != {}
      invariant todo <= keys
      invariant Reports(changes, events, now)
      invariant now == done + (keys - todo) * changes.Keys
      invariant cap.Some? ==> |events| <= cap.value
      invariant |soFar| <= |events| && events[..|soFar|] == soFar
      invariant forall i :: |soFar| <= i < |events| ==> events[i].key in keys
      decreases todo
    {
      if cap.Some? && |events| >= cap.value {
        break;
      }
      var k :| k in todo;
      OneMore(keys, todo, done, changes.Keys, k);
      if k in changes {
        ReportsOne(changes, events, now, k);
        events, now := events + [changes[k]], now + {k};
      }
      todo := todo - {k};
    }
    assert todo == {} ==> keys - todo == keys;
  }

  lemma OneMore(keys: set<Key>, todo: set<Key>, done: set<Key>, all: set<Key>, k: Key)
    requires k in todo && todo <= keys && done !! keys
    ensures k !in done + (keys - todo) * all
    ensures done + (keys - (todo - {k})) * all == done + (keys - todo) * all + if k in all then {k} else {}
  {
  }

  lemma {:induction false} SubsetSize(a: set<Key>, b: set<Key>)
    requires a <= b
    ensures |a| <= |b| && (|a| == |b| ==> a == b)
    decreases b
  {
    if a != {} {
      var x :| x in a;
      SubsetSize(a - {x}, b - {x});
      assert a == (a - {x}) + {x} && b == (b - {x}) + {x};
    }
  }

  /** A watcher: the first snapshot is the baseline, every later one is compared with the one before. */
  class Watcher<!V(!new), !W> {
    const lens: Lens<V, W>
    const cap: Option<nat>
    var seen: Option<map<Key, V>>
    ghost var first: map<Key, W>     // what the baseline showed
    ghost var log: seq<Change<W>>    // everything ever emitted

    constructor (lens: Lens<V, W>, cap: Option<nat>)
      ensures this.lens == lens && this.cap == cap && seen == None && log == []
    {
      this.lens, this.cap, seen, first, log := lens, cap, None, map[], [];
    }

    /** A reader of all the events knows the latest snapshot. */
    ghost predicate Faithful()
      reads this
    {
      seen.Some? ==> Replay(first, log) == Shown(lens, seen.value)
    }

    /** `tick`. The snapshot is taken over even when the cap left changes out. */
    method Tick(current: map<Key, V>) returns (events: seq<Change<W>>, ghost keys: set<Key>)
      modifies this
      ensures seen == Some(current) && log == old(log) + events
      ensures old(seen).None? ==> events == [] && first == Shown(lens, current) && (old(log) == [] ==> Faithful())
      ensures old(seen).Some? ==> (
        var prev := old(seen).value;
        var fits := Fits(lens, cap, prev, current);
        && first == old(first)
        && AllTell(lens, prev, current, events)
        && (cap.Some? ==> |events| <= cap.value)
        && (fits || cap.None? || |events| < cap.value ==> AllTold(lens, prev, current, events))
        && Reports(Changes(lens, prev, current), events, keys)
        && (fits ==> keys == Changes(lens, prev, current).Keys)
        && (!fits ==> |events| == cap.value)
        && (Fair(lens) && old(Faithful()) && fits ==> Faithful())
        && (Exact(lens) && old(Faithful()) ==> (Faithful() <==> fits)))
    {
      if seen.None? {
        seen, first := Some(current), Shown(lens, current);
        events, keys := [], {};
        assert log + [] == log;
        return;
      }
      events, keys := Diff(lens, seen.value, current, cap);
      TickFaithful(lens, cap, seen.value, current, first, log, events, keys);
      seen, log := Some(current), log + events;
    }
  }

  /** Adding a tick's events keeps the reader up to date if they fit, and, where only what shows counts, only then. */
  lemma TickFaithful<V(!new), W>(lens: Lens<V, W>, cap: Option<nat>, prev: map<Key, V>, next: map<Key, V>, first: map<Key, W>,
                                 log: seq<Change<W>>, events: seq<Change<W>>, keys: set<Key>)
    requires Reports(Changes(lens, prev, next), events, keys)
    requires Fits(lens, cap, prev, next) ==> keys == Changes(lens, prev, next).Keys
    requires !Fits(lens, cap, prev, next) ==> |events| == cap.value
    ensures Fair(lens) && Replay(first, log) == Shown(lens, prev) && Fits(lens, cap, prev, next) ==>
      Replay(first, log + events) == Shown(lens, next)
    ensures Exact(lens) && Replay(first, log) == Shown(lens, prev) ==>
      (Replay(first, log + events) == Shown(lens, next) <==> Fits(lens, cap, prev, next))
  {
    ReplayConcat(first, log, events);
    ReportsSize(Changes(lens, prev, next), events, keys);
    if Exact(lens) {
      ReplayIff(lens, prev, next, events, keys);
    }
    if Fair(lens) && keys == Changes(lens, prev, next).Keys {
      ReplayAll(lens, prev, next, events);
    }
  }

  ghost predicate Fits<V, W>(lens: Lens<V, W>, cap: Option<nat>, prev: map<Key, V>, next: map<Key, V>) {
    cap.None? || |Changes(lens, prev, next)| <= cap.value
  }

  // ---- The two of them ----

  /** A file record; the size, time and owner play no part in the comparison. */
  datatype FileRecord = FileRecord(sha256: Option<string>, there: Option<bool>, size: int)

  const FILES: Lens<FileRecord, Option<string>> :=
    Lens((a: FileRecord, b: FileRecord) => a.sha256 == b.sha256 && a.there == b.there, (a: FileRecord) => a.sha256)

  datatype Service = Service(active: string, sub: string, description: string)

  const SERVICES: Lens<Service, (string, string)> :=
    Lens((a: Service, b: Service) => a.active == b.active && a.sub == b.sub, (a: Service) => (a.active, a.sub))

  lemma LensesFit()
    ensures Fair(FILES) && Exact(SERVICES)
    ensures forall a, b :: FILES.same(a, b) <==> a.sha256 == b.sha256 && a.there == b.there
    ensures forall a :: FILES.show(a) == a.sha256 && forall s :: SERVICES.show(s) == (s.active, s.sub)
  {
  }

  /** Two services appear in one tick under a cap of one: a reader of the events knows only one of them, for good. */
  method CappedTick() returns (w: Watcher<Service, (string, string)>, events: seq<Change<(string, string)>>)
    ensures fresh(w) && !w.Faithful()
    ensures |events| == 1 && events[0].Created? && events[0].now == ("active", "running")
  {
    w := new Watcher(SERVICES, Some(1));
    var on := Service("active", "running", "");
    var before: map<Key, Service> := map[];
    var after := map["a" := on, "b" := on];
    ghost var keys;
    events, keys := w.Tick(before);
    TwoAppear(before, after, on);
    LensesFit();
    events, keys := w.Tick(after);
  }

  lemma TwoAppear(before: map<Key, Service>, after: map<Key, Service>, on: Service)
    requires before == map[] && after == map["a" := on, "b" := on]
    ensures !Fits(SERVICES, Some(1), before, after)
  {
    assert Changes(SERVICES, before, after).Keys == {"a", "b"};
    assert |{"a", "b"}| == 2;
  }

  /** Any history of snapshots, compared one after the other without a cap. */
  ghost predicate Compared<V, W>(lens: Lens<V, W>, snaps: seq<map<Key, V>>, ticks: seq<seq<Change<W>>>) {
    && |snaps| == |ticks| + 1
    && forall i :: 0 <= i < |ticks| ==> 
      Reports(Changes(lens, snaps[i], snaps[i + 1]), ticks[i], Changes(lens, snaps[i], snaps[i + 1]).Keys)
  }

  function Flat<W>(ticks: seq<seq<Change<W>>>): seq<Change<W>> {
    if ticks == [] then [] else Flat(ticks[..|ticks| - 1]) + ticks[|ticks| - 1]
  }

  /** After any number of ticks, all the events replayed on the first baseline give the latest one. */
  lemma {:induction false} HistoryReplays<V(!new), W>(lens: Lens<V, W>, snaps: seq<map<Key, V>>, ticks: seq<seq<Change<W>>>)
    requires Fair(lens) && Compared(lens, snaps, ticks)
    ensures Replay(Shown(lens, snaps[0]), Flat(ticks)) == Shown(lens, snaps[|snaps| - 1])
    decreases |ticks|
  {
    if ticks != [] {
      var n := |ticks| - 1;
      assert Compared(lens, snaps[..n + 1], ticks[..n]);
      HistoryReplays(lens, snaps[..n + 1], ticks[..n]);
      ReplayConcat(Shown(lens, snaps[0]), Flat(ticks[..n]), ticks[n]);
      ReplayAll(lens, snaps[n], snaps[n + 1], ticks[n]);
    }
  }
}
