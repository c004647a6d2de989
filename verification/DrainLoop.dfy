/** The exporter's drain loop, interleaved with the producers that fill the buffer and with the deaths and restarts of the
    process. */
module DrainLoop {
  import opened Sequences
  import opened BufferDisk
  import opened BufferReading
  import opened BufferReload
  import opened BufferSteps
  import opened TelemetryBuffers

  /** What happens next, between two awaits of the loop. */
  datatype Step =
    | Produce(ev: Event, now: real, stamp: nat, io: Faults)      // some producer calls `put`
    | TakeBatch(now: real, io: Faults)                           // the loop takes a batch
    | Exported                                                   // the backend accepted the batch
    | Failed(now: real, stamp: nat, io: Faults)                  // the post raised, the batch is restored
    | Restart                                                    // the process dies and comes back
    | CrashInPut(ev: Event, now: real, append: Append)           // it dies in `put`, before the rotation
    | CrashInPrune(ev: Event, now: real, stamp: nat, victims: seq<Path>)           // or later, having dropped `victims`
    | CrashInTake(now: real)                                     // it dies inside `take`, before the state write
    | CrashInRestore(now: real, stamp: nat, write: Writing, victims: seq<Path>)    // and inside `restore`
  {
    predicate Dies() {
      !Produce? && !TakeBatch? && !Exported? && !Failed?
    }

    /** Nothing fails, and a death tears no line and leaves no restore file. */
    predicate Faultless() {
      match this
      case Produce(_, _, _, io) => io == NO_FAULTS
      case TakeBatch(_, io) => io == NO_FAULTS
      case Failed(_, _, io) => io == NO_FAULTS
      case CrashInPut(_, _, append) => !append.Cut?
      case CrashInRestore(_, _, _, _) => false
      case _ => true
    }

    predicate SavesState() {
      match this
      case Produce(_, _, _, io) => !io.save
      case TakeBatch(_, io) => !io.save
      case Failed(_, _, io) => !io.save
      case _ => true
    }

    /** A line is appended as a whole or not at all, and queued. */
    predicate AppendsClean() {
      Produce? ==> io.append.Complete? || io.append.Refused?
    }

    /** The active file can be opened, removed and truncated. */
    predicate ActiveUsable() {
      match this
      case Produce(_, _, _, io) => Active !in io.lost + io.stuck
      case TakeBatch(_, io) => Active !in io.lost + io.stuck
      case Failed(_, _, io) => Active !in io.lost + io.stuck
      case _ => true
    }

    /** The bytes that the step may write to the active file ... */
    function Bytes(): nat {
      if Produce? || CrashInPut? || CrashInPrune? then |ev| + 1 else 0
    }

    /** ... and those by which that file may grow although it is full. */
    function Slack(): nat {
      if CrashInPut? || (Produce? && (io.rename || Active in io.lost)) then |ev| + 1 else 0
    }
  }

  function New(step: Step): seq<Event> {
    if step.Produce? || step.CrashInPut? || step.CrashInPrune? then [step.ev] else []
  }

  /** The events that producers handed over, in order. */
  function Offered(script: seq<Step>): seq<Event> {
    if script == [] then []
    else
      Offered(script[..|script| - 1]) + New(script[|script| - 1])
  }

  function Slack(script: seq<Step>): nat {
    if script == [] then 0 else Slack(script[..|script| - 1]) + script[|script| - 1].Slack()
  }

  predicate Faultless(script: seq<Step>) {
    forall i :: 0 <= i < |script| ==> script[i].Faultless()
  }

  predicate Immortal(script: seq<Step>) {
    forall i :: 0 <= i < |script| ==> !script[i].Dies()
  }

  predicate SavesState(script: seq<Step>) {
    forall i :: 0 <= i < |script| ==> script[i].SavesState()
  }

  predicate AppendsClean(script: seq<Step>) {
    forall i :: 0 <= i < |script| ==> script[i].AppendsClean()
  }

  predicate ActiveUsable(script: seq<Step>) {
    forall i :: 0 <= i < |script| ==> script[i].ActiveUsable()
  }

  /** No process dies between the append and the state write of a `put`. */
  predicate PutsEnd(script: seq<Step>) {
    forall i :: 0 <= i < |script| ==> !script[i].CrashInPut? && !script[i].CrashInPrune?
  }

  predicate RotationsEnd(script: seq<Step>) {
    forall i :: 0 <= i < |script| ==> !script[i].CrashInPrune?
  }

  predicate LinesUpTo(script: seq<Step>, longest: nat) {
    forall i :: 0 <= i < |script| ==> script[i].Bytes() <= longest
  }

  /** Anything may fail at any step; but after a state write that failed, the process does not die. */
  predicate Admissible(script: seq<Step>) {
    forall i, j :: 0 <= i < j < |script| && script[j].Dies() ==> script[i].SavesState()
  }

  /** What a step did besides: how many events were lost; whether it was a death that left lines of an active file out of
      the queue; whether it left an active file to be delivered again; whether it was a death that found other files in the
      directory than the queued and the active one, or one between the rename of a rotation and the state write. */
  datatype Mark = Mark(lost: int, stray: bool, revived: bool, estranged: bool)

  datatype Tally = Tally(lost: int, strays: nat, revivals: nat, estranged: nat)
  {
    function Plus(m: Mark): Tally {
      Tally(lost + m.lost, if m.stray then strays + 1 else strays, if m.revived then revivals + 1 else revivals,
            if m.estranged then estranged + 1 else estranged)
    }
  }

  const NOTHING := Mark(0, false, false, false)

  /** Every event that left the producers and is not lost, oldest first. */
  ghost function Ledger(acked: seq<Event>, inflight: seq<Event>, backlog: seq<Event>): seq<Event> {
    acked + (inflight + backlog)
  }

  /** The directory holds what the queue says and the active file, which ends with a whole line. */
  ghost predicate Steady(s: Snapshot) {
    Tidy(s.disk, s.queue) && !TornActive(s.disk)
  }

  /** The active file and every segment are as small as they should be, but for `slack`. */
  ghost predicate Small(limits: Limits, slack: nat, longest: nat, d: Disk) {
    && ActiveBelow(limits, slack, d)
    && (forall p :: p in d && p.Rotated? ==> BufferDisk.Bytes(d[p].lines) < limits.maxFileBytes + slack + longest)
  }

  /** From `d0` to `d` the active file grew by `more` beyond its bound, and a new segment by less than a line. */
  ghost predicate Grows(limits: Limits, d0: Disk, d: Disk, line: nat, more: nat) {
    && (forall slack: nat :: ActiveBelow(limits, slack, d0) ==>
      && ActiveBelow(limits, slack + more, d)
      && forall p :: p in d && p !in d0 && p.Rotated? ==>
          BufferDisk.Bytes(d[p].lines) < limits.maxFileBytes + slack + line)
    && SegmentsKept(d0, d)
  }

  /** What the cached count promised, it promises again. */
  ghost predicate Kept(s0: Snapshot, s: Snapshot, clean: bool, exact: bool) {
    && (PendingCovers(s0) ==> PendingCovers(s))
    && (clean && Clean(s0) ==> Clean(s))
    && (exact && CountedExactly(s0) ==> CountedExactly(s))
  }

  /** What one step does to the ledger of a buffer that goes from `s0` to `s`: order ... */
  ghost predicate Orders(step: Step, s0: Snapshot, before: seq<Event>, after: seq<Event>, m: Mark) {
    && (!m.revived && !m.estranged ==> IsSubseq(after, before + New(step)))
    && (m.revived ==> !step.ActiveUsable())
    && (m.estranged ==> step.Dies() && (!Tidy(s0.disk, s0.queue) || step.CrashInPrune?))
  }

  /** ... conservation ... */
  ghost predicate Conserves(step: Step, s0: Snapshot, before: seq<Event>, s: Snapshot, after: seq<Event>, m: Mark) {
    && (step.Faultless() && !m.estranged && Steady(s0) ==> Steady(s) && |after| + m.lost == |before| + |New(step)|)
    && (!step.Dies() ==> m.lost == s.dropped - s0.dropped)
  }

  /** ... and the cached count. */
  ghost predicate Counts(step: Step, s0: Snapshot, s: Snapshot, m: Mark) {
    && (!m.stray && !m.revived ==> Kept(s0, s, step.AppendsClean(), step.Faultless() && !m.estranged))
    && (m.stray ==> step.Dies() && (step.CrashInPut? || step.CrashInPrune? || !Clean(s0)))
  }

  ghost predicate Takes(limits: Limits, step: Step, s0: Snapshot, before: seq<Event>, s: Snapshot, after: seq<Event>, m: Mark) {
    && Orders(step, s0, before, after, m)
    && Conserves(step, s0, before, s, after, m)
    && Counts(step, s0, s, m)
    && Grows(limits, s0.disk, s.disk, step.Bytes(), step.Slack())
  }

  lemma LedgerKeepsOrder(acked: seq<Event>, inflight: seq<Event>, backlog: seq<Event>,
                         inflight': seq<Event>, backlog': seq<Event>, more: seq<Event>)
    requires IsSubseq(inflight' + backlog', (inflight + backlog) + more)
    ensures IsSubseq(Ledger(acked, inflight', backlog'), Ledger(acked, inflight, backlog) + more)
  {
    SubseqRefl(acked);
    SubseqConcat(acked, acked, inflight' + backlog', (inflight + backlog) + more);
    ConcatAssoc(acked, inflight + backlog, more);
  }

  // ---- Steps of a living process ----

  lemma ProducedInOrder(acked: seq<Event>, inflight: seq<Event>, here: seq<Event>, after: seq<Event>, got: seq<Event>, ev: Event)
    requires IsSubseq(after, here + got) && (got == [] || got == [ev])
    ensures IsSubseq(Ledger(acked, inflight, after), Ledger(acked, inflight, here) + [ev])
  {
    assert IsSubseq(inflight + after, (inflight + here) + [ev]) by {
      SubseqRefl(here);
      SubseqRefl(got);
      SubseqRefl(inflight);
      SubseqConcat(here, here, got, [ev]);
      SubseqTrans(after, here + got, here + [ev]);
      SubseqConcat(inflight, inflight, after, here + [ev]);
      ConcatAssoc(inflight, here, [ev]);
    }
    LedgerKeepsOrder(acked, inflight, here, inflight, after, [ev]);
  }

  /** A producer's `put`, on snapshots. */
  lemma Produced(limits: Limits, step: Step, s0: Snapshot, s: Snapshot, acked: seq<Event>, inflight: seq<Event>)
    requires step.Produce? && WellFormed(s0.disk, s0.queue) && Aligned(s0.disk, s0.queue)
    requires PutOutcome(limits, s0, s, step.ev, step.now, step.io)
    ensures Takes(limits, step, s0, Ledger(acked, inflight, Due(s0)), s, Ledger(acked, inflight, Due(s)),
      Mark(s.dropped - s0.dropped, false, PutRevives(limits, s0, step.ev, step.now, step.io), false))
  {
    var m := Mark(s.dropped - s0.dropped, false, PutRevives(limits, s0, step.ev, step.now, step.io), false);
    ProducedOrders(limits, step, s0, s, acked, inflight, m);
    ProducedCounts(limits, step, s0, s, m);
    if step.io == NO_FAULTS {
      ProducedAll(limits, s0, s, step.ev, step.now);
    }
    PutGrows(limits, s0, s, step.ev, step.io);
  }

  lemma ProducedOrders(limits: Limits, step: Step, s0: Snapshot, s: Snapshot, acked: seq<Event>, inflight: seq<Event>,
                       m: Mark)
    requires step.Produce? && PutOrdered(limits, s0, s, step.ev, step.now, step.io)
    requires m == Mark(s.dropped - s0.dropped, false, PutRevives(limits, s0, step.ev, step.now, step.io), false)
    ensures Orders(step, s0, Ledger(acked, inflight, Due(s0)), Ledger(acked, inflight, Due(s)), m)
  {
    if !m.revived {
      ProducedInOrder(acked, inflight, Due(s0), Due(s), AppendedEvents(s0.disk, step.ev, step.io), step.ev);
    }
  }

  lemma ProducedCounts(limits: Limits, step: Step, s0: Snapshot, s: Snapshot, m: Mark)
    requires step.Produce? && PutCounted(limits, s0, s, step.ev, step.now, step.io)
    requires m == Mark(s.dropped - s0.dropped, false, PutRevives(limits, s0, step.ev, step.now, step.io), false)
    ensures Counts(step, s0, s, m)
  {
    assert step.AppendsClean() ==> !Unlisted(s0.queue, step.ev, step.io);
  }

  lemma ProducedAll(limits: Limits, s0: Snapshot, s: Snapshot, ev: Event, now: real)
    requires WellFormed(s0.disk, s0.queue) && Aligned(s0.disk, s0.queue)
    requires PutOutcome(limits, s0, s, ev, now, NO_FAULTS)
    ensures Steady(s0) ==> Steady(s) && |Due(s)| + s.dropped == |Due(s0)| + 1 + s0.dropped
  {
    AppendPhase(s0, AfterAppend(s0, ev, now, NO_FAULTS), ev, now, NO_FAULTS);
    assert Events([]) == [];
  }

  lemma PutGrows(limits: Limits, s0: Snapshot, s: Snapshot, ev: Event, io: Faults)
    requires PutSized(limits, s0, s, ev, io)
    ensures Grows(limits, s0.disk, s.disk, |ev| + 1, if io.rename || Active in io.lost then |ev| + 1 else 0)
  {
  }

  /** The loop's `take`, with nothing in flight. */
  lemma Taken(limits: Limits, step: Step, n: nat, s0: Snapshot, s: Snapshot, batch: seq<Event>, acked: seq<Event>)
    requires step.TakeBatch? && TakeDelivers(s0, s, n, batch, step.io) && TakeLoses(s0, s, n, batch, step.io)
    requires TakeKeeps(limits, s0, s, batch, step.io)
    ensures Takes(limits, step, s0, Ledger(acked, [], Due(s0)), s, Ledger(acked, batch, Due(s)),
      Mark(0, false, Lingers(s0.queue, s.queue, step.io), false))
  {
    var m := Mark(0, false, Lingers(s0.queue, s.queue, step.io), false);
    TakenOrders(step, s0, s, batch, acked, m);
    TakenCounts(limits, step, s0, s, batch, m);
    TakeGrows(limits, s0, s);
  }

  lemma TakenOrders(step: Step, s0: Snapshot, s: Snapshot, batch: seq<Event>, acked: seq<Event>, m: Mark)
    requires step.TakeBatch? && m == Mark(0, false, Lingers(s0.queue, s.queue, step.io), false)
    requires m.revived || IsSubseq(batch + Due(s), Due(s0))
    ensures Orders(step, s0, Ledger(acked, [], Due(s0)), Ledger(acked, batch, Due(s)), m)
  {
    assert [] + Due(s0) == Due(s0) && Due(s0) + [] == Due(s0);
    if !m.revived {
      LedgerKeepsOrder(acked, [], Due(s0), batch, Due(s), []);
      assert Ledger(acked, [], Due(s0)) + [] == Ledger(acked, [], Due(s0));
    }
  }

  lemma TakenCounts(limits: Limits, step: Step, s0: Snapshot, s: Snapshot, batch: seq<Event>, m: Mark)
    requires step.TakeBatch? && m == Mark(0, false, Lingers(s0.queue, s.queue, step.io), false)
    requires TakeKeeps(limits, s0, s, batch, step.io)
    ensures Counts(step, s0, s, m)
  {
  }

  lemma TakeGrows(limits: Limits, s0: Snapshot, s: Snapshot)
    requires TakeSized(limits, s0, s)
    ensures Grows(limits, s0.disk, s.disk, 0, 0)
  {
  }

  /** The loop's `restore` after a failed post. */
  lemma PutBackInOrder(limits: Limits, step: Step, s0: Snapshot, s: Snapshot, path: Path, acked: seq<Event>, batch: seq<Event>)
    requires step.Failed? && !path.Rotated?
    requires RestoreOutcome(limits, s0, s, path, batch, step.now, step.io)
    ensures Takes(limits, step, s0, Ledger(acked, batch, Due(s0)), s, Ledger(acked, [], Due(s)),
      Mark(s.dropped - s0.dropped, false, RestoreRevives(limits, s0, path, batch, step.now, step.io), false))
  {
    var m := Mark(s.dropped - s0.dropped, false, RestoreRevives(limits, s0, path, batch, step.now, step.io), false);
    RestoredCounts(limits, step, s0, s, path, batch, m);
    RestoreOrderKept(limits, s0, s, path, batch, step.now, step.io);
    RestoredOrders(step, s0, s, acked, batch, m);
    if step.io == NO_FAULTS {
      RestoredAll(limits, s0, s, path, batch, step.now);
    }
    RestoreGrows(limits, s0, s, path);
  }

  lemma RestoredOrders(step: Step, s0: Snapshot, s: Snapshot, acked: seq<Event>, batch: seq<Event>, m: Mark)
    requires step.Failed? && (m.revived ==> Active in step.io.stuck) && !m.estranged
    requires m.revived || IsSubseq(Due(s), batch + Due(s0))
    ensures Orders(step, s0, Ledger(acked, batch, Due(s0)), Ledger(acked, [], Due(s)), m)
  {
    if !m.revived {
      assert [] + Due(s) == Due(s) && (batch + Due(s0)) + [] == batch + Due(s0);
      LedgerKeepsOrder(acked, batch, Due(s0), [], Due(s), []);
      assert Ledger(acked, batch, Due(s0)) + [] == Ledger(acked, batch, Due(s0));
    }
  }

  lemma RestoredCounts(limits: Limits, step: Step, s0: Snapshot, s: Snapshot, path: Path, batch: seq<Event>, m: Mark)
    requires step.Failed? && RestoreOutcome(limits, s0, s, path, batch, step.now, step.io)
    requires m == Mark(s.dropped - s0.dropped, false, RestoreRevives(limits, s0, path, batch, step.now, step.io), false)
    ensures Counts(step, s0, s, m)
  {
    RestoreOrderKept(limits, s0, s, path, batch, step.now, step.io);
  }

  lemma RestoredAll(limits: Limits, s0: Snapshot, s: Snapshot, path: Path, batch: seq<Event>, now: real)
    requires RestoreOutcome(limits, s0, s, path, batch, now, NO_FAULTS)
    ensures Steady(s0) ==> Steady(s)
    ensures |Due(s)| + s.dropped == |batch| + |Due(s0)| + s0.dropped
  {
  }

  lemma RestoreGrows(limits: Limits, s0: Snapshot, s: Snapshot, path: Path)
    requires RestoreSized(limits, s0, s, path) && !path.Rotated?
    ensures Grows(limits, s0.disk, s.disk, 0, 0)
  {
  }

  lemma Idle(limits: Limits, step: Step, s: Snapshot, ledger: seq<Event>)
    requires New(step) == [] && !step.Dies()
    ensures Takes(limits, step, s, ledger, s, ledger, NOTHING)
  {
    assert ledger + [] == ledger;
    SubseqRefl(ledger);
  }

  /** The step leaves the active file out of the queue, to be queued again from its first line: retention drops it and cannot
      remove it, or a read finishes it and cannot open, remove or truncate it. */
  ghost predicate Revivable(limits: Limits, step: Step, inflight: seq<Event>, s0: Snapshot, s: Snapshot) {
    match step
    case Produce(ev, now, _, io) => PutRevives(limits, s0, ev, now, io)
    case TakeBatch(_, io) => inflight == [] && Lingers(s0.queue, s.queue, io)
    case Failed(now, _, io) => exists path: Path ::
      path.Restored? && path !in s0.disk && RestoreRevives(limits, s0, path, inflight, now, io)
    case _ => false
  }

  /** One step of a living process. */
  method Live(b: TelemetryBuffer, batchSize: nat, step: Step, acked: seq<Event>, inflight: seq<Event>)
    returns (acked': seq<Event>, inflight': seq<Event>, ghost m: Mark)
    requires b.Valid() && !step.Dies()
    modifies b
    ensures b.Valid() && (m.revived ==> Revivable(b.limits, step, inflight, old(b.Now()), b.Now()))
    ensures Takes(b.limits, step, old(b.Now()), Ledger(acked, inflight, old(b.Backlog())), b.Now(),
      Ledger(acked', inflight', b.Backlog()), m)
    ensures step.SavesState() && old(b.saved) == Some(old(b.queue)) ==> b.saved == Some(b.queue)
  {
    ghost var s0 := b.Now();
    acked', inflight', m := acked, inflight, NOTHING;
    if step.Produce? {
      b.Put(step.ev, step.now, step.stamp, step.io);
      Produced(b.limits, step, s0, b.Now(), acked, inflight);
      m := Mark(b.dropped - s0.dropped, false, PutRevives(b.limits, s0, step.ev, step.now, step.io), false);
    } else if step.TakeBatch? && inflight == [] {
      inflight' := b.Take(batchSize, step.now, step.io);
      Taken(b.limits, step, batchSize, s0, b.Now(), inflight', acked);
      m := Mark(0, false, Lingers(s0.queue, b.queue, step.io), false);
    } else if step.Exported? {
      acked', inflight' := acked + inflight, [];
      assert [] + b.Backlog() == b.Backlog();
      ConcatAssoc(acked, inflight, b.Backlog());
      Idle(b.limits, step, s0, Ledger(acked, inflight, b.Backlog()));
    } else if step.Failed? {
      ghost var path := b.Restore(inflight, step.now, step.stamp, step.io);
      inflight' := [];
      PutBackInOrder(b.limits, step, s0, b.Now(), path, acked, inflight);
      m := Mark(b.dropped - s0.dropped, false, RestoreRevives(b.limits, s0, path, inflight, step.now, step.io), false);
    } else {
      Idle(b.limits, step, s0, Ledger(acked, inflight, b.Backlog()));
    }
  }

  // ---- Deaths ----

  /** A new process takes over the directory and the state file. */
  method Reopen(b: TelemetryBuffer) returns (b': TelemetryBuffer)
    requires b.saved.Some? ==> Written(b.saved.value) && Aligned(b.disk, b.saved.value)
    ensures Reborn(b', b.limits) && fresh(b') && b'.disk == b.disk
    ensures Loaded(b.disk, b.saved, b'.queue)
    ensures b'.pending == NonBlank(Unread(b'.disk, b'.queue))
    ensures Counted(b'.Now()) <==> !Stray(b.disk, b.saved)
  {
    b' := new TelemetryBuffer.Open(b.settings, b.disk, b.saved);
  }

  ghost predicate Reborn(b: TelemetryBuffer, limits: Limits)
    reads b
  {
    b.Valid() && b.saved == Some(b.queue) && b.limits == limits
  }

  /** A process that died left the disk as in `s`, and a state file that says `q0`. */
  ghost predicate TakesOver(q0: seq<Cursor>, s: Snapshot) {
    && Loaded(s.disk, Some(q0), s.queue)
    && s.pending == NonBlank(Unread(s.disk, s.queue))
    && (Counted(s) <==> !Stray(s.disk, Some(q0)))
  }

  /** No lines are left out of the new queue that were not left out of the old one. */
  lemma StrayUnclean(d0: Disk, q0: seq<Cursor>, d: Disk)
    requires !Queued(q0, Active) && Active in d ==> Active in d0 && d[Active].lines == d0[Active].lines
    ensures Stray(d, Some(q0)) ==> NonBlank(Orphan(d0, q0)) > 0
  {
    assert NonBlank([]) == 0;
  }

  /** A count that was right is right again when the new process counts all that is owed. */
  lemma CountSurvives(s0: Snapshot, s: Snapshot)
    requires OwedLines(s.disk, s.queue) - |Due(s)| <= OwedLines(s0.disk, s0.queue) - |Due(s0)|
    requires s.pending == NonBlank(Unread(s.disk, s.queue))
    ensures Clean(s) ==> Counted(s)
    ensures Clean(s) && PendingExact(s0) ==> CountedExactly(s)
  {
    FullUnread(s.disk, s.queue);
    EventsAtMostNonBlank(FullText(s));
  }

  ghost function FullText(s: Snapshot): seq<Line> {
    Unread(s.disk, FullQueue(s.disk, s.queue))
  }

  lemma BrokenLines(s0: Snapshot, s: Snapshot, done: seq<Line>)
    requires FullText(s0) == done + FullText(s)
    ensures OwedLines(s.disk, s.queue) - |Due(s)| <= OwedLines(s0.disk, s0.queue) - |Due(s0)|
  {
    EventsConcat(done, FullText(s));
    NonBlankConcat(done, FullText(s));
    EventsAtMostNonBlank(done);
  }

  /** What is left of a backlog whose first events are gone, and the events that were in flight with it. */
  lemma DieKeepsOrder(acked: seq<Event>, inflight: seq<Event>, before: seq<Event>, after: seq<Event>, more: seq<Event>)
    requires IsSubseq(after, before + more)
    ensures IsSubseq(Ledger(acked, [], after), Ledger(acked, inflight, before) + more)
  {
    assert [] + after == after;
    SubseqSuffix(inflight, before + more);
    SubseqTrans(after, before + more, inflight + (before + more));
    ConcatAssoc(inflight, before, more);
    LedgerKeepsOrder(acked, inflight, before, [], after, more);
  }

  /** What a death does that leaves the backlog `after`. */
  lemma Died(limits: Limits, step: Step, s0: Snapshot, s: Snapshot, acked: seq<Event>, inflight: seq<Event>, m: Mark)
    requires step.Dies() && TakesOver(s0.queue, s)
    requires m == DeathMark(step, s0, s, inflight, m.estranged)
    requires m.estranged ==> !Tidy(s0.disk, s0.queue) || step.CrashInPrune?
    requires !m.estranged ==>
      || IsSubseq(Due(s), Due(s0) + New(step))
      || (step.CrashInRestore? && IsSubseq(Due(s), inflight + Due(s0)))
    requires step.Faultless() && !m.estranged ==>
      && (Steady(s0) ==> Steady(s))
      && OwedLines(s.disk, s.queue) - |Due(s)| <= OwedLines(s0.disk, s0.queue) - |Due(s0)|
    requires step.CrashInPut? || step.CrashInPrune? || (Stray(s.disk, Some(s0.queue)) ==> !Clean(s0))
    requires Grows(limits, s0.disk, s.disk, step.Bytes(), step.Slack())
    ensures Takes(limits, step, s0, Ledger(acked, inflight, Due(s0)), s, Ledger(acked, [], Due(s)), m)
  {
    var before, after := Ledger(acked, inflight, Due(s0)), Ledger(acked, [], Due(s));
    if !m.estranged {
      DiedInOrder(step, s0, s, acked, inflight);
    }
    if step.Faultless() && !m.estranged {
      CountSurvives(s0, s);
    }
    assert Conserves(step, s0, before, s, after, m);
  }

  lemma DiedInOrder(step: Step, s0: Snapshot, s: Snapshot, acked: seq<Event>, inflight: seq<Event>)
    requires IsSubseq(Due(s), Due(s0) + New(step)) || (New(step) == [] && IsSubseq(Due(s), inflight + Due(s0)))
    ensures IsSubseq(Ledger(acked, [], Due(s)), Ledger(acked, inflight, Due(s0)) + New(step))
  {
    if IsSubseq(Due(s), Due(s0) + New(step)) {
      DieKeepsOrder(acked, inflight, Due(s0), Due(s), New(step));
    } else {
      assert [] + Due(s) == Due(s) && (inflight + Due(s0)) + [] == inflight + Due(s0);
      LedgerKeepsOrder(acked, inflight, Due(s0), [], Due(s), []);
    }
  }

  /** What is lost with the process: the batch in flight, and what is missing from the backlog. */
  ghost function DeathMark(step: Step, s0: Snapshot, s: Snapshot, inflight: seq<Event>, estranged: bool): Mark {
    Mark(|inflight| + |Due(s0)| + |New(step)| - |Due(s)|, !Counted(s), false, estranged)
  }

  /** Death between two operations. */
  method DieAtRest(b: TelemetryBuffer, acked: seq<Event>, inflight: seq<Event>) returns (b': TelemetryBuffer, ghost m: Mark)
    requires b.Valid() && b.saved == Some(b.queue)
    ensures fresh(b') && Reborn(b', b.limits)
    ensures m == DeathMark(Restart, b.Now(), b'.Now(), inflight, !Tidy(b.disk, b.queue))
    ensures Takes(b.limits, Restart, b.Now(), Ledger(acked, inflight, b.Backlog()), b'.Now(), Ledger(acked, [], b'.Backlog()), m)
    ensures !m.estranged ==> b'.Backlog() == b.Backlog()
  {
    b' := Reopen(b);
    m := DeathMark(Restart, b.Now(), b'.Now(), inflight, !Tidy(b.disk, b.queue));
    AfterRest(b.limits, Restart, b.Now(), b'.Now(), acked, inflight, m);
  }

  lemma AfterRest(limits: Limits, step: Step, s0: Snapshot, s: Snapshot, acked: seq<Event>, inflight: seq<Event>, m: Mark)
    requires step.Restart? || step.CrashInRestore?
    requires WellFormed(s0.disk, s0.queue) && s.disk == s0.disk && TakesOver(s0.queue, s)
    requires m == DeathMark(step, s0, s, inflight, !Tidy(s0.disk, s0.queue))
    ensures Takes(limits, step, s0, Ledger(acked, inflight, Due(s0)), s, Ledger(acked, [], Due(s)), m)
    ensures !m.estranged ==> Due(s) == Due(s0)
  {
    StrayUnclean(s0.disk, s0.queue, s.disk);
    if !m.estranged {
      SameAfterRest(s0, s);
    }
    Died(limits, step, s0, s, acked, inflight, m);
  }

  lemma SameAfterRest(s0: Snapshot, s: Snapshot)
    requires WellFormed(s0.disk, s0.queue) && Tidy(s0.disk, s0.queue)
    requires s.disk == s0.disk && Loaded(s.disk, Some(s0.queue), s.queue)
    ensures Due(s) == Due(s0) && Tidy(s.disk, s.queue) && IsSubseq(Due(s), Due(s0) + [])
    ensures OwedLines(s.disk, s.queue) == OwedLines(s0.disk, s0.queue)
  {
    ReloadSame(s0.disk, s0.queue, s.queue);
    assert Due(s0) + [] == Due(s0);
    SubseqRefl(Due(s0));
  }

  /** Death in the append of a `put`, or right after it. */
  method DieInPut(b: TelemetryBuffer, step: Step, acked: seq<Event>, inflight: seq<Event>)
    returns (b': TelemetryBuffer, ghost m: Mark)
    requires b.Valid() && b.saved == Some(b.queue) && step.CrashInPut?
    modifies b
    ensures fresh(b') && Reborn(b', b.limits)
    ensures m == DeathMark(step, old(b.Now()), b'.Now(), inflight, !Tidy(old(b.disk), old(b.queue)))
    ensures Takes(b.limits, step, old(b.Now()), Ledger(acked, inflight, old(b.Backlog())), b'.Now(),
      Ledger(acked, [], b'.Backlog()), m)
    ensures !m.estranged ==>
      b'.Backlog() == old(b.Backlog()) + AppendedEvents(old(b.disk), step.ev, NO_FAULTS.(append := step.append))
    ensures m.stray <==>
      && old(b.queue) != [] && !Queued(old(b.queue), Active)
      && (LineLeft(step.ev, step.append).Some? || NonBlank(ActiveLines(old(b.disk))) > 0)
  {
    ghost var s0 := b.Now();
    ghost var io := NO_FAULTS.(append := step.append);
    CutAppend(b, step.ev, step.now, step.append);
    b' := Reopen(b);
    m := DeathMark(step, s0, b'.Now(), inflight, !Tidy(s0.disk, s0.queue));
    AfterDeathInPut(b.limits, step, s0, b'.Now(), io, acked, inflight, m);
  }

  /** What the append leaves. */
  method CutAppend(b: TelemetryBuffer, ev: Event, now: real, append: Append)
    requires b.Valid()
    modifies b`disk
    ensures b.disk == DiskAfterAppend(old(b.disk), ev, now, NO_FAULTS.(append := append))
    ensures Written(b.queue) && Aligned(b.disk, b.queue)
  {
    var left := LineLeft(ev, append);
    if left.Some? {
      AppendedWellFormed(b.disk, b.queue, left.value, now);
      b.disk := b.disk[Active := File(Extended(ActiveLines(b.disk), left.value), now)];
    }
  }

  lemma AfterDeathInPut(limits: Limits, step: Step, s0: Snapshot, s: Snapshot, io: Faults, acked: seq<Event>,
                        inflight: seq<Event>, m: Mark)
    requires WellFormed(s0.disk, s0.queue) && Aligned(s0.disk, s0.queue) && step.CrashInPut?
    requires io == NO_FAULTS.(append := step.append)
    requires s.disk == DiskAfterAppend(s0.disk, step.ev, step.now, io) && TakesOver(s0.queue, s)
    requires m == DeathMark(step, s0, s, inflight, !Tidy(s0.disk, s0.queue))
    ensures Takes(limits, step, s0, Ledger(acked, inflight, Due(s0)), s, Ledger(acked, [], Due(s)), m)
    ensures !m.estranged ==> Due(s) == Due(s0) + AppendedEvents(s0.disk, step.ev, io)
    ensures m.stray <==>
      && s0.queue != [] && !Queued(s0.queue, Active)
      && (LineLeft(step.ev, step.append).Some? || NonBlank(ActiveLines(s0.disk)) > 0)
  {
    StrayAfterAppend(s0.disk, s0.queue, step.ev, step.now, io);
    AppendGrows(limits, s0, AfterAppend(s0, step.ev, step.now, io), step.ev, step.now, io);
    if !m.estranged {
      MoreAfterAppend(s0, s, step.ev, step.now, io);
    }
    Died(limits, step, s0, s, acked, inflight, m);
  }

  lemma MoreAfterAppend(s0: Snapshot, s: Snapshot, ev: Event, now: real, io: Faults)
    requires WellFormed(s0.disk, s0.queue) && Aligned(s0.disk, s0.queue) && Tidy(s0.disk, s0.queue)
    requires s.disk == DiskAfterAppend(s0.disk, ev, now, io) && Loaded(s.disk, Some(s0.queue), s.queue)
    ensures Due(s) == Due(s0) + AppendedEvents(s0.disk, ev, io) && Tidy(s.disk, s.queue)
    ensures IsSubseq(Due(s), Due(s0) + [ev])
    ensures !io.append.Cut? ==>
      && (!TornActive(s0.disk) ==> !TornActive(s.disk))
      && OwedLines(s.disk, s.queue) - |Due(s)| <= OwedLines(s0.disk, s0.queue) - |Due(s0)|
  {
    ReloadAfterAppend(s0.disk, s0.queue, ev, now, io, s.queue);
    AppendTears(s0, ev, now, io);
    AppendedInOrder(Due(s0), AppendedEvents(s0.disk, ev, io), ev);
    assert !io.append.Cut? ==> AppendedLines(s0.disk, ev, io) == |AppendedEvents(s0.disk, ev, io)|;
  }

  lemma AppendGrows(limits: Limits, s0: Snapshot, s1: Snapshot, ev: Event, now: real, io: Faults)
    requires Appended(s0, s1, ev, now, io)
    ensures Grows(limits, s0.disk, s1.disk, |ev| + 1, |ev| + 1)
  {
    AppendedBytes(s0, s1, ev, now, io);
  }

  /** Death in the pruning of a `put`, after a rotation if one was due. */
  method DieInPrune(b: TelemetryBuffer, step: Step, acked: seq<Event>, inflight: seq<Event>)
    returns (b': TelemetryBuffer, ghost m: Mark)
    requires b.Valid() && b.saved == Some(b.queue) && step.CrashInPrune?
    modifies b
    ensures fresh(b') && Reborn(b', b.limits)
    ensures var turned := Rotates(b.limits, AfterAppend(old(b.Now()), step.ev, step.now, NO_FAULTS), NO_FAULTS);
      m == DeathMark(step, old(b.Now()), b'.Now(), inflight, turned || !Tidy(old(b.disk), old(b.queue)))
    ensures Takes(b.limits, step, old(b.Now()), Ledger(acked, inflight, old(b.Backlog())), b'.Now(),
      Ledger(acked, [], b'.Backlog()), m)
    ensures !m.estranged ==>
      && b'.Backlog() == b.Backlog()
      && |b'.Backlog()| + b.dropped
      == |old(b.Backlog())| + |AppendedEvents(old(b.disk), step.ev, NO_FAULTS)| + old(b.dropped)
  {
    ghost var s0 := b.Now();
    ghost var s1, s2, target := PutAndDrop(b, step);
    AlignedInPut(b.limits, s0, s1, s2, b.Now(), target, step.ev, step.now);
    b' := Reopen(b);
    m := DeathMark(step, s0, b'.Now(), inflight, target.Some? || !Tidy(s0.disk, s0.queue));
    AfterDeathInPrune(b.limits, step, s0, s1, s2, b.Now(), b'.Now(), target, acked, inflight, m);
  }

  /** What `put` does to the files until then. */
  method PutAndDrop(b: TelemetryBuffer, step: Step)
    returns (ghost s1: Snapshot, ghost s2: Snapshot, ghost target: Option<Path>)
    requires b.Valid() && step.CrashInPrune?
    modifies b`disk, b`queue, b`pending, b`dropped
    ensures Appended(old(b.Now()), s1, step.ev, step.now, NO_FAULTS)
    ensures RotatedTo(b.limits, s1, s2, target, NO_FAULTS)
    ensures Pruned(s2, b.Now(), NO_FAULTS)
  {
    s1, target := b.PutLine(step.ev, step.now, step.stamp, NO_FAULTS);
    s2 := b.Now();
    PrunedRefl(s2, NO_FAULTS);
    b.DropSome(step.victims, NO_FAULTS, s2);
  }

  lemma AlignedInPut(limits: Limits, s0: Snapshot, s1: Snapshot, s2: Snapshot, s: Snapshot, target: Option<Path>, ev: Event,
                     now: real)
    requires WellFormed(s0.disk, s0.queue) && Aligned(s0.disk, s0.queue) && Appended(s0, s1, ev, now, NO_FAULTS)
    requires RotatedTo(limits, s1, s2, target, NO_FAULTS) && Pruned(s2, s, NO_FAULTS)
    ensures Aligned(s.disk, s0.queue) && Written(s0.queue)
  {
    AppendedWellFormed(s0.disk, s0.queue, Record(ev), now);
    assert TornActive(s.disk) ==> ActiveLines(s.disk) == ActiveLines(s1.disk);
  }

  lemma AfterDeathInPrune(limits: Limits, step: Step, s0: Snapshot, s1: Snapshot, s2: Snapshot, s3: Snapshot, s: Snapshot,
                          target: Option<Path>, acked: seq<Event>, inflight: seq<Event>, m: Mark)
    requires WellFormed(s0.disk, s0.queue) && Aligned(s0.disk, s0.queue) && step.CrashInPrune? && limits.Valid()
    requires Appended(s0, s1, step.ev, step.now, NO_FAULTS) && RotatedTo(limits, s1, s2, target, NO_FAULTS)
    requires Pruned(s2, s3, NO_FAULTS) && s.disk == s3.disk && TakesOver(s0.queue, s)
    requires m == DeathMark(step, s0, s, inflight, target.Some? || !Tidy(s0.disk, s0.queue))
    ensures Takes(limits, step, s0, Ledger(acked, inflight, Due(s0)), s, Ledger(acked, [], Due(s)), m)
    ensures !m.estranged ==>
      && Due(s) == Due(s3)
      && |Due(s3)| + s3.dropped == |Due(s0)| + |AppendedEvents(s0.disk, step.ev, NO_FAULTS)| + s0.dropped
  {
    PutSizeFacts(limits, s0, s1, s2, s3, target, step.ev, step.now, NO_FAULTS);
    PutGrows(limits, s0, s3, step.ev, NO_FAULTS);
    if !m.estranged {
      PrunedInPut(s0, s1, s3, step.ev, step.now);
      ReloadInPut(s0, s1, s3, step.ev, step.now, s.queue);
    }
    Died(limits, step, s0, s, acked, inflight, m);
  }

  /** What is owed in memory then. */
  lemma PrunedInPut(s0: Snapshot, s1: Snapshot, s: Snapshot, ev: Event, now: real)
    requires WellFormed(s0.disk, s0.queue) && Aligned(s0.disk, s0.queue)
    requires Appended(s0, s1, ev, now, NO_FAULTS) && Pruned(s1, s, NO_FAULTS)
    ensures IsSubseq(Due(s), Due(s0) + [ev]) && !TornActive(s.disk)
    ensures |Due(s)| + s.dropped == |Due(s0)| + |AppendedEvents(s0.disk, ev, NO_FAULTS)| + s0.dropped
    ensures OwedLines(s.disk, s.queue) - |Due(s)| <= OwedLines(s0.disk, s0.queue) - |Due(s0)|
  {
    var more := AppendedEvents(s0.disk, ev, NO_FAULTS);
    AppendedOwes(s0, s1, ev, now);
    NothingRevived(s1, s);
    assert IsSubseq(Due(s), Due(s0) + [ev]) by {
      AppendedInOrder(Due(s0), more, ev);
      SubseqTrans(Due(s), Due(s1), Due(s0) + [ev]);
    }
  }

  lemma AppendedOwes(s0: Snapshot, s1: Snapshot, ev: Event, now: real)
    requires WellFormed(s0.disk, s0.queue) && Aligned(s0.disk, s0.queue) && Appended(s0, s1, ev, now, NO_FAULTS)
    ensures WellFormed(s1.disk, s1.queue) && !TornActive(s1.disk) && s1.dropped == s0.dropped
    ensures Due(s1) == Due(s0) + AppendedEvents(s0.disk, ev, NO_FAULTS)
    ensures OwedLines(s1.disk, s1.queue) - |Due(s1)| == OwedLines(s0.disk, s0.queue) - |Due(s0)|
  {
    AppendPhase(s0, s1, ev, now, NO_FAULTS);
    AppendTears(s0, ev, now, NO_FAULTS);
    assert AppendedLines(s0.disk, ev, NO_FAULTS) == |AppendedEvents(s0.disk, ev, NO_FAULTS)|;
  }

  lemma AppendedInOrder(here: seq<Event>, more: seq<Event>, ev: Event)
    requires more == [] || more == [ev]
    ensures IsSubseq(here + more, here + [ev])
  {
    SubseqRefl(here);
    SubseqRefl(more);
    SubseqConcat(here, here, more, [ev]);
  }

  /** Retention without faults. */
  lemma NothingRevived(s1: Snapshot, s: Snapshot)
    requires WellFormed(s1.disk, s1.queue) && Pruned(s1, s, NO_FAULTS)
    ensures IsSubseq(Due(s), Due(s1)) && |Due(s)| + s.dropped == |Due(s1)| + s1.dropped
    ensures OwedLines(s.disk, s.queue) - |Due(s)| <= OwedLines(s1.disk, s1.queue) - |Due(s1)|
    ensures TornActive(s.disk) ==> TornActive(s1.disk)
  {
    PrunedOrphan(s1, s, NO_FAULTS);
    PrunedOwed(s1, s, NO_FAULTS);
    PrunedBroken(s1, s, NO_FAULTS);
  }

  /** Death inside `take`, before its state write. */
  method DieInTake(b: TelemetryBuffer, batchSize: nat, now: real, acked: seq<Event>, inflight: seq<Event>)
    returns (b': TelemetryBuffer, ghost m: Mark, ghost gone: nat)
    requires b.Valid() && b.saved == Some(b.queue)
    modifies b
    ensures fresh(b') && Reborn(b', b.limits)
    ensures m == DeathMark(CrashInTake(now), old(b.Now()), b'.Now(), inflight, !Tidy(old(b.disk), old(b.queue)))
    ensures Takes(b.limits, CrashInTake(now), old(b.Now()), Ledger(acked, inflight, old(b.Backlog())), b'.Now(),
      Ledger(acked, [], b'.Backlog()), m)
    ensures !m.estranged ==>
      gone <= batchSize && gone <= |old(b.Backlog())| && b'.Backlog() == old(b.Backlog())[gone..]
  {
    ghost var s0 := b.Now();
    ghost var j;
    var batch;
    batch, j := b.ReadFront(batchSize, now, NO_FAULTS);
    ghost var s1 := b.Now();
    AlignedInTake(s0, j, now);
    b' := Reopen(b);
    m := DeathMark(CrashInTake(now), s0, b'.Now(), inflight, !Tidy(s0.disk, s0.queue));
    gone := AfterDeathInTake(b.limits, s0, batchSize, batch, j, s1.queue, now, b'.Now(), acked, inflight, m);
  }

  lemma AlignedInTake(s0: Snapshot, j: nat, now: real)
    requires WellFormed(s0.disk, s0.queue) && Aligned(s0.disk, s0.queue) && j <= |s0.queue|
    ensures Aligned(Finished(s0.disk, s0.queue[..j], now, NO_FAULTS), s0.queue) && Written(s0.queue)
  {
    FinishedActive(s0.disk, s0.queue[..j], now, NO_FAULTS);
  }

  lemma AfterDeathInTake(limits: Limits, s0: Snapshot, n: nat, batch: seq<Event>, j: nat, q1: seq<Cursor>, now: real,
                         s: Snapshot, acked: seq<Event>, inflight: seq<Event>, m: Mark)
    returns (gone: nat)
    requires limits.Valid() && WellFormed(s0.disk, s0.queue)
    requires ReadOut(s0.disk, s0.queue, n, batch, j, q1, NO_FAULTS)
    requires s.disk == Finished(s0.disk, s0.queue[..j], now, NO_FAULTS) && TakesOver(s0.queue, s)
    requires m == DeathMark(CrashInTake(now), s0, s, inflight, !Tidy(s0.disk, s0.queue))
    ensures Takes(limits, CrashInTake(now), s0, Ledger(acked, inflight, Due(s0)), s, Ledger(acked, [], Due(s)), m)
    ensures !m.estranged ==> gone <= n && gone <= |Due(s0)| && Due(s) == Due(s0)[gone..]
  {
    gone := 0;
    if !Queued(s0.queue, Active) {
      UnqueuedInTake(s0, j, now);
    }
    StrayUnclean(s0.disk, s0.queue, s.disk);
    TakeSizeFacts(limits, s0, s, j, now, NO_FAULTS);
    TakeGrows(limits, s0, s);
    if !m.estranged {
      gone := LessAfterTake(s0, n, batch, j, q1, now, s);
    }
    Died(limits, CrashInTake(now), s0, s, acked, inflight, m);
  }

  lemma LessAfterTake(s0: Snapshot, n: nat, batch: seq<Event>, j: nat, q1: seq<Cursor>, now: real, s: Snapshot)
    returns (gone: nat)
    requires WellFormed(s0.disk, s0.queue) && Tidy(s0.disk, s0.queue)
    requires ReadOut(s0.disk, s0.queue, n, batch, j, q1, NO_FAULTS)
    requires s.disk == Finished(s0.disk, s0.queue[..j], now, NO_FAULTS) && Loaded(s.disk, Some(s0.queue), s.queue)
    ensures gone <= n && gone <= |Due(s0)| && Due(s) == Due(s0)[gone..]
    ensures Tidy(s.disk, s.queue) && IsSubseq(Due(s), Due(s0) + [])
    ensures OwedLines(s.disk, s.queue) - |Due(s)| <= OwedLines(s0.disk, s0.queue) - |Due(s0)|
  {
    ReloadAfterRead(s0.disk, s0.queue, n, batch, j, q1, now, s.queue);
    gone := |Due(s0)| - |Due(s)|;
    assert IsSubseq(Due(s), Due(s0) + []) by {
      SuffixInOrder(Due(s0), gone);
    }
    assert OwedLines(s.disk, s.queue) - |Due(s)| <= OwedLines(s0.disk, s0.queue) - |Due(s0)| by {
      BrokenLines(s0, s, Unread(s0.disk, s0.queue[..j]));
    }
  }

  lemma UnqueuedInTake(s0: Snapshot, j: nat, now: real)
    requires j <= |s0.queue| && !Queued(s0.queue, Active)
    ensures var d := Finished(s0.disk, s0.queue[..j], now, NO_FAULTS);
      Active in d ==> Active in s0.disk && d[Active].lines == s0.disk[Active].lines
  {
    assert !Queued(s0.queue[..j], Active);
    FinishedFrame(s0.disk, s0.queue[..j], now, NO_FAULTS, Active);
  }

  lemma SuffixInOrder(all: seq<Event>, gone: nat)
    requires gone <= |all|
    ensures IsSubseq(all[gone..], all + [])
  {
    assert all == all[..gone] + all[gone..] && all + [] == all;
    SubseqSuffix(all[..gone], all[gone..]);
  }

  /** Death inside `restore`: its file may be there in part, or whole, and some files dropped. */
  method DieInRestore(b: TelemetryBuffer, step: Step, acked: seq<Event>, inflight: seq<Event>)
    returns (b': TelemetryBuffer, ghost m: Mark)
    requires b.Valid() && b.saved == Some(b.queue) && step.CrashInRestore?
    modifies b
    ensures fresh(b') && Reborn(b', b.limits)
    ensures m == DeathMark(step, old(b.Now()), b'.Now(), inflight, !Tidy(old(b.disk), old(b.queue)))
    ensures Takes(b.limits, step, old(b.Now()), Ledger(acked, inflight, old(b.Backlog())), b'.Now(),
      Ledger(acked, [], b'.Backlog()), m)
    ensures !m.estranged ==> |b'.Backlog()| + b.dropped >= |old(b.Backlog())| + old(b.dropped)
  {
    ghost var s0 := b.Now();
    var left := LinesLeft(inflight, step.write);
    if inflight == [] || left.None? {
      b' := Reopen(b);
      m := DeathMark(step, s0, b'.Now(), inflight, !Tidy(s0.disk, s0.queue));
      AfterRest(b.limits, step, s0, b'.Now(), acked, inflight, m);
      return;
    }
    var lines := left.value;
    ghost var path, s1 := LeaveFile(b, step, inflight, lines);
    ghost var file, s3 := File(lines, step.now), if step.write.Whole? then b.Now() else s1;
    AlignedInRestore(s0, s1, s3, path, file);
    b' := Reopen(b);
    m := DeathMark(step, s0, b'.Now(), inflight, !Tidy(s0.disk, s0.queue));
    LeftInOrder(inflight, step.write);
    AfterDeathInRestore(b.limits, step, s0, s1, s3, path, file, b'.Now(), acked, inflight, m);
  }

  /** What `restore` does to the files until then; `s1` is the buffer with the file queued. */
  method LeaveFile(b: TelemetryBuffer, step: Step, events: seq<Event>, lines: seq<Line>)
    returns (ghost path: Path, ghost s1: Snapshot)
    requires b.Valid() && step.CrashInRestore? && LinesLeft(events, step.write) == Some(lines)
    modifies b`disk, b`queue, b`pending, b`dropped
    ensures path.Restored? && path !in old(b.disk)
    ensures Restoring(old(b.Now()), s1, if step.write.Whole? then b.Now() else s1, path, File(lines, step.now))
    ensures s1.dropped == old(b.dropped)
    ensures !step.write.Whole? ==> b.disk == s1.disk && b.dropped == old(b.dropped)
  {
    ghost var s0 := b.Now();
    var file := b.FreshName(true, step.stamp);
    path := file;
    s1 := Snapshot(s0.disk[file := File(lines, step.now)], [Cursor(file, 0)] + s0.queue, s0.pending + |events|, s0.dropped);
    PrunedRefl(s1, NO_FAULTS);
    if step.write.Whole? {
      b.QueueRestored(events, file, step.now);
      b.DropSome(step.victims, NO_FAULTS, s1);
    } else {
      b.disk := b.disk[file := File(lines, step.now)];
    }
  }

  /** The buffer in memory at such a death. */
  ghost predicate Restoring(s0: Snapshot, s1: Snapshot, s3: Snapshot, path: Path, file: File) {
    && path.Restored? && path !in s0.disk
    && s1.disk == s0.disk[path := file] && s1.queue == [Cursor(path, 0)] + s0.queue
    && Pruned(s1, s3, NO_FAULTS)
  }

  lemma AlignedInRestore(s0: Snapshot, s1: Snapshot, s3: Snapshot, path: Path, file: File)
    requires WellFormed(s0.disk, s0.queue) && Aligned(s0.disk, s0.queue) && Restoring(s0, s1, s3, path, file)
    ensures Aligned(s3.disk, s0.queue) && Written(s0.queue)
    ensures Active in s3.disk ==> Active in s0.disk && s3.disk[Active] == s0.disk[Active]
  {
  }

  lemma AfterDeathInRestore(limits: Limits, step: Step, s0: Snapshot, s1: Snapshot, s3: Snapshot, path: Path, file: File,
                            s: Snapshot, acked: seq<Event>, inflight: seq<Event>, m: Mark)
    requires limits.Valid() && step.CrashInRestore?
    requires WellFormed(s0.disk, s0.queue) && Aligned(s0.disk, s0.queue) && Restoring(s0, s1, s3, path, file)
    requires IsSubseq(Events(file.lines), inflight)
    requires s.disk == s3.disk && TakesOver(s0.queue, s)
    requires m == DeathMark(step, s0, s, inflight, !Tidy(s0.disk, s0.queue))
    ensures Takes(limits, step, s0, Ledger(acked, inflight, Due(s0)), s, Ledger(acked, [], Due(s)), m)
    ensures !m.estranged ==> |Due(s)| + s3.dropped >= |Due(s0)| + s1.dropped
  {
    assert Stray(s.disk, Some(s0.queue)) ==> !Clean(s0) by {
      AlignedInRestore(s0, s1, s3, path, file);
      StrayUnclean(s0.disk, s0.queue, s.disk);
    }
    RestoringGrows(limits, s0, s1, s3, path, file);
    if !m.estranged {
      RestoredInOrder(s0, s1, s3, path, file, inflight, s.queue);
    }
    DiedInRestore(limits, step, s0, s, acked, inflight, m);
  }

  lemma DiedInRestore(limits: Limits, step: Step, s0: Snapshot, s: Snapshot, acked: seq<Event>, inflight: seq<Event>, m: Mark)
    requires step.CrashInRestore? && TakesOver(s0.queue, s)
    requires m == DeathMark(step, s0, s, inflight, !Tidy(s0.disk, s0.queue))
    requires !m.estranged ==> IsSubseq(Due(s), inflight + Due(s0))
    requires Stray(s.disk, Some(s0.queue)) ==> !Clean(s0)
    requires Grows(limits, s0.disk, s.disk, 0, 0)
    ensures Takes(limits, step, s0, Ledger(acked, inflight, Due(s0)), s, Ledger(acked, [], Due(s)), m)
  {
    if !m.estranged {
      DiedInOrder(step, s0, s, acked, inflight);
    }
  }

  lemma RestoringGrows(limits: Limits, s0: Snapshot, s1: Snapshot, s3: Snapshot, path: Path, file: File)
    requires limits.Valid() && Restoring(s0, s1, s3, path, file)
    ensures Grows(limits, s0.disk, s3.disk, 0, 0)
  {
    assert BufferDisk.Bytes([]) == 0;
  }

  lemma RestoredInOrder(s0: Snapshot, s1: Snapshot, s3: Snapshot, path: Path, file: File, events: seq<Event>, q: seq<Cursor>)
    requires WellFormed(s0.disk, s0.queue) && Tidy(s0.disk, s0.queue) && Restoring(s0, s1, s3, path, file)
    requires IsSubseq(Events(file.lines), events) && Loaded(s3.disk, Some(s0.queue), q)
    ensures IsSubseq(Owed(s3.disk, q), events + Due(s0))
    ensures |Owed(s3.disk, q)| + s3.dropped >= |Due(s0)| + s1.dropped
  {
    var known := Survivors(s3.disk, s0.queue);
    var front := if path in s3.disk then Events(file.lines) else [];
    ReloadInRestore(s0, s1, s3, path, file, q);
    SubseqRefl(Due(s3));
    SubseqSuffix(front, Owed(s3.disk, known));
    assert IsSubseq(Owed(s3.disk, q), Due(s3));
    RestoringOwes(s0, s1, s3, path, file);
    SubseqRefl(Due(s0));
    SubseqConcat(Events(file.lines), events, Due(s0), Due(s0));
    SubseqTrans(Owed(s3.disk, q), Due(s3), Due(s1));
    SubseqTrans(Owed(s3.disk, q), Due(s1), events + Due(s0));
  }

  lemma RestoringOwes(s0: Snapshot, s1: Snapshot, s3: Snapshot, path: Path, file: File)
    requires WellFormed(s0.disk, s0.queue) && Tidy(s0.disk, s0.queue) && Restoring(s0, s1, s3, path, file)
    ensures Due(s1) == Events(file.lines) + Due(s0) && IsSubseq(Due(s3), Due(s1))
    ensures |Due(s3)| + s3.dropped == |Due(s1)| + s1.dropped
  {
    RestoredBefore(s0, s1, path, file);
    UnqueuedFile(s0.disk, s0.queue, path, file);
    BehindFront(s1.disk, Cursor(path, 0), s0.queue);
    NothingRevived(s1, s3);
  }

  /** The process dies, possibly in the middle of an operation, and a new one opens the directory. */
  method Reincarnate(b: TelemetryBuffer, batchSize: nat, step: Step, acked: seq<Event>, inflight: seq<Event>)
    returns (b': TelemetryBuffer, ghost m: Mark)
    requires b.Valid() && b.saved == Some(b.queue) && step.Dies()
    modifies b
    ensures fresh(b') && Reborn(b', b.limits)
    ensures m == DeathMark(step, old(b.Now()), b'.Now(), inflight, m.estranged)
    ensures m.estranged <==>
      || !Tidy(old(b.disk), old(b.queue))
      || (step.CrashInPrune? && Rotates(b.limits, AfterAppend(old(b.Now()), step.ev, step.now, NO_FAULTS), NO_FAULTS))
    ensures Takes(b.limits, step, old(b.Now()), Ledger(acked, inflight, old(b.Backlog())), b'.Now(),
      Ledger(acked, [], b'.Backlog()), m)
    ensures !m.estranged && step.Restart? ==> b'.Backlog() == old(b.Backlog())
    ensures !m.estranged && step.CrashInPut? ==>
      b'.Backlog() == old(b.Backlog()) + AppendedEvents(old(b.disk), step.ev, NO_FAULTS.(append := step.append))
    ensures !m.estranged && step.CrashInTake? ==> IsLateSuffix(b'.Backlog(), old(b.Backlog()), batchSize)
  {
    if step.Restart? {
      b', m := DieAtRest(b, acked, inflight);
    } else if step.CrashInPut? {
      b', m := DieInPut(b, step, acked, inflight);
    } else if step.CrashInPrune? {
      b', m := DieInPrune(b, step, acked, inflight);
    } else if step.CrashInTake? {
      ghost var gone;
      b', m, gone := DieInTake(b, batchSize, step.now, acked, inflight);
    } else {
      b', m := DieInRestore(b, step, acked, inflight);
    }
  }

  /** One step, of a living process or a dying one. */
  method Next(b: TelemetryBuffer, batchSize: nat, step: Step, acked: seq<Event>, inflight: seq<Event>)
    returns (b': TelemetryBuffer, acked': seq<Event>, inflight': seq<Event>, ghost m: Mark)
    requires b.Valid() && (step.Dies() ==> b.saved == Some(b.queue))
    modifies b
    ensures b'.Valid() && b'.limits == b.limits && (fresh(b') || b' == b) && (!step.Dies() ==> b' == b)
    ensures Takes(b.limits, step, old(b.Now()), Ledger(acked, inflight, old(b.Backlog())), b'.Now(),
      Ledger(acked', inflight', b'.Backlog()), m)
    ensures m.revived ==> Revivable(b.limits, step, inflight, old(b.Now()), b'.Now())
    ensures step.SavesState() && old(b.saved) == Some(old(b.queue)) ==> b'.saved == Some(b'.queue)
  {
    if step.Dies() {
      b', m := Reincarnate(b, batchSize, step, acked, inflight);
      acked', inflight' := acked, [];
    } else {
      acked', inflight', m := Live(b, batchSize, step, acked, inflight);
      b' := b;
    }
  }

  // ---- Whole runs ----

  /** What holds of a run that began in `s0` and has come to `s`. */
  ghost predicate SoFar(limits: Limits, script: seq<Step>, s0: Snapshot, s: Snapshot, ledger: seq<Event>, t: Tally) {
    && RunOrdered(script, s0, ledger, t)
    && RunConserved(script, s0, s, ledger, t)
    && RunCounted(script, s0, s, t)
    && RunSized(limits, script, s0.disk, s.disk)
  }

  ghost predicate RunOrdered(script: seq<Step>, s0: Snapshot, ledger: seq<Event>, t: Tally) {
    && (t.revivals == t.estranged == 0 ==> IsSubseq(ledger, Due(s0) + Offered(script)))
    && (ActiveUsable(script) ==> t.revivals == 0)
    && (Immortal(script) ==> t.estranged == 0)
  }

  ghost predicate RunConserved(script: seq<Step>, s0: Snapshot, s: Snapshot, ledger: seq<Event>, t: Tally) {
    && (Faultless(script) && Steady(s0) && t.estranged == 0 ==>
          Steady(s) && |ledger| + t.lost == |Due(s0)| + |Offered(script)|)
    && (Faultless(script) && Steady(s0) && RotationsEnd(script) ==> t.estranged == 0)
    && (Immortal(script) ==> t.lost == s.dropped - s0.dropped)
  }

  ghost predicate RunCounted(script: seq<Step>, s0: Snapshot, s: Snapshot, t: Tally) {
    && (t.strays == t.revivals == 0 && PendingCovers(s0) ==> PendingCovers(s))
    && (t.strays == t.revivals == 0 && AppendsClean(script) && Clean(s0) ==> Clean(s))
    && (t.strays == t.revivals == t.estranged == 0 && Faultless(script) && CountedExactly(s0) ==> CountedExactly(s))
    && (PutsEnd(script) && AppendsClean(script) && t.revivals == 0 && Clean(s0) ==> t.strays == 0)
  }

  ghost predicate RunSized(limits: Limits, script: seq<Step>, d0: Disk, d: Disk) {
    forall slack: nat, longest: nat :: LinesUpTo(script, longest) && Small(limits, slack, longest, d0) ==>
      Small(limits, slack + Slack(script), longest, d)
  }

  lemma NothingYet(limits: Limits, script: seq<Step>, s: Snapshot)
    ensures SoFar(limits, script[..0], s, s, Ledger([], [], Due(s)), Tally(0, 0, 0, 0))
  {
    assert Ledger([], [], Due(s)) == Due(s) && script[..0] == [];
    assert Due(s) + Offered(script[..0]) == Due(s);
    SubseqRefl(Due(s));
  }

  lemma OneMore(limits: Limits, script: seq<Step>, i: nat, s0: Snapshot, s1: Snapshot, s2: Snapshot, before: seq<Event>,
                after: seq<Event>, t: Tally, m: Mark)
    requires i < |script|
    requires SoFar(limits, script[..i], s0, s1, before, t)
    requires Takes(limits, script[i], s1, before, s2, after, m)
    ensures SoFar(limits, script[..i + 1], s0, s2, after, t.Plus(m))
  {
    OneMoreOrdered(script, i, s0, s1, before, after, t, m);
    OneMoreConserved(script, i, s0, s1, s2, before, after, t, m);
    OneMoreCounted(script, i, s0, s1, s2, t, m);
    OneMoreSized(limits, script, i, s0.disk, s1.disk, s2.disk);
  }

  lemma OneMoreOrdered(script: seq<Step>, i: nat, s0: Snapshot, s1: Snapshot, before: seq<Event>, after: seq<Event>, t: Tally,
                       m: Mark)
    requires i < |script| && RunOrdered(script[..i], s0, before, t) && Orders(script[i], s1, before, after, m)
    ensures RunOrdered(script[..i + 1], s0, after, t.Plus(m))
  {
    PrefixSums(script, i);
    PrefixFaults(script, i);
    PrefixDeaths(script, i);
    if t.revivals == t.estranged == 0 && !m.revived && !m.estranged {
      Extend(after, before, New(script[i]), Due(s0), Offered(script[..i]));
    }
  }

  lemma OneMoreConserved(script: seq<Step>, i: nat, s0: Snapshot, s1: Snapshot, s2: Snapshot, before: seq<Event>,
                         after: seq<Event>, t: Tally, m: Mark)
    requires i < |script| && RunConserved(script[..i], s0, s1, before, t)
    requires Conserves(script[i], s1, before, s2, after, m)
    requires m.estranged ==> !Tidy(s1.disk, s1.queue) || script[i].CrashInPrune?
    ensures RunConserved(script[..i + 1], s0, s2, after, t.Plus(m))
  {
    PrefixSums(script, i);
    PrefixFaults(script, i);
    PrefixDeaths(script, i);
  }

  lemma OneMoreCounted(script: seq<Step>, i: nat, s0: Snapshot, s1: Snapshot, s2: Snapshot, t: Tally, m: Mark)
    requires i < |script| && RunCounted(script[..i], s0, s1, t) && Counts(script[i], s1, s2, m)
    ensures RunCounted(script[..i + 1], s0, s2, t.Plus(m))
  {
    PrefixFaults(script, i);
    PrefixDeaths(script, i);
  }

  lemma OneMoreSized(limits: Limits, script: seq<Step>, i: nat, d0: Disk, d1: Disk, d2: Disk)
    requires i < |script| && RunSized(limits, script[..i], d0, d1)
    requires Grows(limits, d1, d2, script[i].Bytes(), script[i].Slack())
    ensures RunSized(limits, script[..i + 1], d0, d2)
  {
    forall slack: nat, longest: nat | LinesUpTo(script[..i + 1], longest) && Small(limits, slack, longest, d0)
      ensures Small(limits, slack + Slack(script[..i + 1]), longest, d2)
    {
      LinesBefore(script, i, longest);
      PrefixSums(script, i);
      StaysSmall(limits, slack + Slack(script[..i]), longest, d1, d2, script[i].Bytes(), script[i].Slack(),
                 slack + Slack(script[..i + 1]));
    }
  }

  lemma LinesBefore(script: seq<Step>, i: nat, longest: nat)
    requires i < |script| && LinesUpTo(script[..i + 1], longest)
    ensures LinesUpTo(script[..i], longest) && script[i].Bytes() <= longest
  {
    assert script[..i + 1][i] == script[i];
    assert forall k :: 0 <= k < i ==> script[..i + 1][k] == script[..i][k];
  }

  lemma StaysSmall(limits: Limits, slack: nat, longest: nat, d1: Disk, d2: Disk, line: nat, more: nat, total: nat)
    requires Small(limits, slack, longest, d1) && Grows(limits, d1, d2, line, more) && line <= longest
    requires total == slack + more
    ensures Small(limits, total, longest, d2)
  {
    forall p | p in d2 && p.Rotated? ensures BufferDisk.Bytes(d2[p].lines) < limits.maxFileBytes + total + longest
    {
      if p in d1 {
        assert d2[p] == d1[p];
      }
    }
  }

  lemma PrefixSums(script: seq<Step>, i: nat)
    requires i < |script|
    ensures Offered(script[..i + 1]) == Offered(script[..i]) + New(script[i])
    ensures Slack(script[..i + 1]) == Slack(script[..i]) + script[i].Slack()
  {
    var p := script[..i + 1];
    assert p[..i] == script[..i] && p[i] == script[i];
  }

  lemma PrefixFaults(script: seq<Step>, i: nat)
    requires i < |script|
    ensures Faultless(script[..i + 1]) <==> Faultless(script[..i]) && script[i].Faultless()
    ensures AppendsClean(script[..i + 1]) <==> AppendsClean(script[..i]) && script[i].AppendsClean()
    ensures ActiveUsable(script[..i + 1]) <==> ActiveUsable(script[..i]) && script[i].ActiveUsable()
    ensures SavesState(script[..i + 1]) <==> SavesState(script[..i]) && script[i].SavesState()
  {
    var p := script[..i + 1];
    assert p[i] == script[i];
    assert forall k :: 0 <= k < i ==> p[k] == script[..i][k];
  }

  lemma PrefixDeaths(script: seq<Step>, i: nat)
    requires i < |script|
    ensures Immortal(script[..i + 1]) <==> Immortal(script[..i]) && !script[i].Dies()
    ensures RotationsEnd(script[..i + 1]) <==> RotationsEnd(script[..i]) && !script[i].CrashInPrune?
    ensures PutsEnd(script[..i + 1]) <==> PutsEnd(script[..i]) && !script[i].CrashInPut? && !script[i].CrashInPrune?
  {
    var p := script[..i + 1];
    assert p[i] == script[i];
    assert forall k :: 0 <= k < i ==> p[k] == script[..i][k];
  }

  lemma Extend(now: seq<Event>, before: seq<Event>, more: seq<Event>, b0: seq<Event>, offered: seq<Event>)
    requires IsSubseq(now, before + more) && IsSubseq(before, b0 + offered)
    ensures IsSubseq(now, b0 + (offered + more))
  {
    SubseqRefl(more);
    SubseqConcat(before, b0 + offered, more, more);
    SubseqTrans(now, before + more, (b0 + offered) + more);
    ConcatAssoc(b0, offered, more);
  }

  /** `run_forever`: at most one batch is in flight; a batch in flight is lost if the process dies. Whatever fails, and
      wherever the process dies, `t` counts what may break the promises. */
  method RunForever(buffer: TelemetryBuffer, batchSize: nat, script: seq<Step>)
    returns (b: TelemetryBuffer, acked: seq<Event>, inflight: seq<Event>, ghost t: Tally)
    requires buffer.Valid() && buffer.saved == Some(buffer.queue) && Admissible(script)
    modifies buffer
    ensures b.Valid() && b.limits == buffer.limits
    // Order: nothing is reordered, repeated or invented, unless an active file is revived or a death was estranged.
    ensures t.revivals == t.estranged == 0 ==>
      IsSubseq(acked + (inflight + b.Backlog()), old(buffer.Backlog()) + Offered(script))
    ensures ActiveUsable(script) ==> t.revivals == 0
    ensures Immortal(script) ==> t.estranged == 0 && t.lost == b.dropped - old(buffer.dropped)
    // Conservation: without faults, whatever is missing is counted, and if nothing is, all of it is there.
    ensures Faultless(script) && old(Steady(buffer.Now())) && t.estranged == 0 ==>
      && Steady(b.Now())
      && |acked| + |inflight| + |b.Backlog()| + t.lost == |old(buffer.Backlog())| + |Offered(script)|
      && (t.lost == 0 ==> acked + (inflight + b.Backlog()) == old(buffer.Backlog()) + Offered(script))
    ensures Faultless(script) && old(Steady(buffer.Now())) && RotationsEnd(script) ==> t.estranged == 0
    // The cached count stays an upper bound, and exact without faults, unless a death strayed.
    ensures t.strays == t.revivals == 0 && PendingCovers(old(buffer.Now())) ==> PendingCovers(b.Now())
    ensures t.strays == t.estranged == 0 && Faultless(script) && CountedExactly(old(buffer.Now())) ==> CountedExactly(b.Now())
    ensures PutsEnd(script) && AppendsClean(script) && t.revivals == 0 && Clean(old(buffer.Now())) ==> t.strays == 0
    // The active file and every rotated one stay small, but for the lines written while no rotation could follow.
    ensures RunSized(b.limits, script, old(buffer.disk), b.disk)
  {
    ghost var s0 := buffer.Now();
    b, acked, inflight, t := Rounds(buffer, batchSize, script);
    assert script[..|script|] == script;
    if t.revivals == t.estranged == 0 {
      AllThere(Ledger(acked, inflight, b.Backlog()), Due(s0) + Offered(script));
    }
    FaultlessUsable(script);
  }

  lemma FaultlessUsable(script: seq<Step>)
    ensures Faultless(script) ==> ActiveUsable(script)
  {
    forall i | 0 <= i < |script| && script[i].Faultless() ensures script[i].ActiveUsable() {
    }
  }

  lemma AllThere(ledger: seq<Event>, all: seq<Event>)
    requires IsSubseq(ledger, all)
    ensures |ledger| == |all| ==> ledger == all
  {
    SubseqLength(ledger, all);
  }

  method Rounds(buffer: TelemetryBuffer, batchSize: nat, script: seq<Step>)
    returns (b: TelemetryBuffer, acked: seq<Event>, inflight: seq<Event>, ghost t: Tally)
    requires buffer.Valid() && buffer.saved == Some(buffer.queue) && Admissible(script)
    modifies buffer
    ensures b.Valid() && b.limits == buffer.limits
    ensures SoFar(b.limits, script[..|script|], old(buffer.Now()), b.Now(), Ledger(acked, inflight, b.Backlog()), t)
  {
    b, acked, inflight, t := buffer, [], [], Tally(0, 0, 0, 0);
    ghost var s0 := buffer.Now();
    NothingYet(b.limits, script, s0);
    for i := 0 to |script|
      invariant b.Valid() && b.limits == buffer.limits && (b == buffer || fresh(b))
      invariant SavesState(script[..i]) ==> b.saved == Some(b.queue)
      invariant SoFar(b.limits, script[..i], s0, b.Now(), Ledger(acked, inflight, b.Backlog()), t)
    {
      b, acked, inflight, t := Round(b, batchSize, script, i, acked, inflight, s0, t);
    }
  }

  method Round(b: TelemetryBuffer, batchSize: nat, script: seq<Step>, i: nat, acked: seq<Event>, inflight: seq<Event>,
               ghost s0: Snapshot, ghost t: Tally)
    returns (b': TelemetryBuffer, acked': seq<Event>, inflight': seq<Event>, ghost t': Tally)
    requires b.Valid() && Admissible(script) && i < |script|
    requires SavesState(script[..i]) ==> b.saved == Some(b.queue)
    requires SoFar(b.limits, script[..i], s0, b.Now(), Ledger(acked, inflight, b.Backlog()), t)
    modifies b
    ensures b'.Valid() && b'.limits == b.limits && (b' == b || fresh(b'))
    ensures SavesState(script[..i + 1]) ==> b'.saved == Some(b'.queue)
    ensures SoFar(b'.limits, script[..i + 1], s0, b'.Now(), Ledger(acked', inflight', b'.Backlog()), t')
  {
    ghost var s1 := b.Now();
    PrefixFaults(script, i);
    SavedBefore(script, i);
    ghost var m;
    b', acked', inflight', m := Next(b, batchSize, script[i], acked, inflight);
    OneMore(b.limits, script, i, s0, s1, b'.Now(), Ledger(acked, inflight, Due(s1)),
            Ledger(acked', inflight', b'.Backlog()), t, m);
    t' := t.Plus(m);
  }

  lemma SavedBefore(script: seq<Step>, i: nat)
    requires i < |script| && Admissible(script)
    ensures script[i].Dies() ==> SavesState(script[..i])
  {
    forall k | 0 <= k < i && script[i].Dies() ensures script[..i][k].SavesState() {
      assert script[..i][k] == script[k];
    }
  }
}
