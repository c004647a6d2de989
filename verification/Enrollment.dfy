/** Single-use enrollment tokens: three files, rewritten one at a time, and a process that may stop between any two
    writes. Nothing is kept in memory between requests, so a restart changes nothing. */
module Enrollment {
  import opened Sequences

  type Token = string

  datatype Owner = Owner(user: string, client: string)

  /** `expires`: None when the text is blank or unreadable. */
  datatype Meta = Meta(owner: Owner, expires: Option<real>)

  /** The lines of the tokens file that mean something. */
  datatype Line = Minted(token: Token, meta: Meta) | Consumed(token: Token) | Plain(token: Token)

  datatype Disk = Disk(issued: map<Token, Meta>, consumed: set<Token>, lines: seq<Line>)

  /** `fixed`: the tokens of the environment; `file`: a tokens file is configured; `append`: it is kept up to date. */
  datatype Config = Config(fixed: set<Token>, file: bool, append: bool)

  // ---- Reading ----

  predicate Alive(meta: Meta, now: real) {
    meta.expires.None? || meta.expires.value >= now
  }

  /** `_purge_expired_issued` */
  function Purged(issued: map<Token, Meta>, now: real): map<Token, Meta> {
    map t | t in issued && Alive(issued[t], now) :: issued[t]
  }

  /** The mint lines of tokens not consumed; a later line of the same token wins. */
  function FromLines(lines: seq<Line>, consumed: set<Token>): map<Token, Meta> {
    if lines == [] then map[]
    else
      var before := FromLines(lines[..|lines| - 1], consumed);
      var last := lines[|lines| - 1];
      if last.Minted? && last.token != "" && last.token !in consumed then before[last.token := last.meta] else before
  }

  /** `_load_issued` */
  function LoadIssued(cfg: Config, d: Disk, now: real): map<Token, Meta> {
    var fromFile := if cfg.file then Purged(FromLines(d.lines, d.consumed), now) else map[];
    Purged(fromFile + Purged(d.issued, now), now)
  }

  function PlainTokens(lines: seq<Line>): set<Token> {
    set i | 0 <= i < |lines| && lines[i].Plain? :: lines[i].token
  }

  /** `_load_static_tokens` */
  function StaticTokens(cfg: Config, d: Disk): set<Token> {
    cfg.fixed + if cfg.file then PlainTokens(d.lines) else {}
  }

  // ---- Writing ----

  function SaveIssued(d: Disk, issued: map<Token, Meta>, now: real): Disk {
    d.(issued := Purged(issued, now))
  }

  function SaveConsumed(d: Disk, token: Token): Disk {
    d.(consumed := d.consumed + {token})
  }

  function AppendLine(cfg: Config, d: Disk, line: Line): Disk {
    if cfg.file && cfg.append then d.(lines := d.lines + [line]) else d
  }

  datatype Answer = Refused | Accepted(owner: Option<Owner>) | Died

  /** The clock, as read by the first load, the second load and the save. */
  datatype Clock = Clock(load: real, again: real, save: real) {
    predicate Valid() { load <= again <= save }
  }

  /** `_consume_token` when only `writes` of its three writes happen before the process stops. */
  function Consume(cfg: Config, d: Disk, token: Token, at: Clock, writes: nat): (Disk, Answer) {
    if token == "" || token in d.consumed then (d, Refused)
    else
      var issued := LoadIssued(cfg, d, at.load);
      if token in issued then
        var again := LoadIssued(cfg, d, at.again);
        if token !in again || again[token].owner.user == "" then (d, Refused)
        else
          var d1 := SaveIssued(d, issued - {token}, at.save);
          var d2 := SaveConsumed(d1, token);
          var d3 := AppendLine(cfg, d2, Consumed(token));
          if writes == 0 then (d, Died) else if writes == 1 then (d1, Died) else if writes == 2 then (d2, Died)
          else (d3, Accepted(Some(again[token].owner)))
      else if token !in StaticTokens(cfg, d) then (d, Refused)
      else if writes == 0 then (d, Died)
      else (SaveConsumed(d, token), Accepted(None))
  }

  /** What `mint_enrollment_token` makes of the lifetime it is asked for. */
  function Lifetime(ttl: real): real {
    if ttl < 60.0 then 60.0 else ttl
  }

  /** `mint_enrollment_token`; `token` is the one drawn. */
  function Mint(cfg: Config, d: Disk, owner: Owner, ttl: real, token: Token, at: Clock, writes: nat): (Disk, bool) {
    if owner.user == "" then (d, false)
    else
      var meta := Meta(owner, Some(at.load + Lifetime(ttl)));
      var d1 := SaveIssued(d, LoadIssued(cfg, d, at.again)[token := meta], at.save);
      var d2 := AppendLine(cfg, d1, Minted(token, meta));
      if writes == 0 then (d, false) else if writes == 1 then (d1, false) else (d2, true)
  }

  // ---- Whole histories ----

  /** `minted` and `accepted` are the whole past: who each token was drawn for, and what was accepted. */
  datatype System = System(disk: Disk, minted: map<Token, Owner>, accepted: seq<(Token, Option<Owner>)>)

  datatype Step =
    | DoMint(owner: Owner, ttl: real, token: Token, at: Clock, writes: nat)
    | DoConsume(token: Token, at: Clock, writes: nat)

  function Do(cfg: Config, s: System, step: Step): System {
    match step
    case DoMint(owner, ttl, token, at, writes) =>
      System(Mint(cfg, s.disk, owner, ttl, token, at, writes).0, s.minted[token := owner], s.accepted)
    case DoConsume(token, at, writes) =>
      var (d, answer) := Consume(cfg, s.disk, token, at, writes);
      System(d, s.minted, if answer.Accepted? then s.accepted + [(token, answer.owner)] else s.accepted)
  }

  /** Drawn tokens are new; the clock does not run backwards within a step. */
  ghost predicate Enabled(cfg: Config, s: System, step: Step) {
    && step.at.Valid()
    && (step.DoMint? ==> step.token != "" && step.token !in s.minted && step.token !in StaticTokens(cfg, s.disk))
  }

  /** Everything on disk about an issued token says who it was drawn for. */
  ghost predicate Truthful(d: Disk, minted: map<Token, Owner>) {
    && (forall t :: t in d.issued ==> t in minted && d.issued[t].owner == minted[t])
    && (forall i :: 0 <= i < |d.lines| && d.lines[i].Minted? ==>
         d.lines[i].token in minted && d.lines[i].meta.owner == minted[d.lines[i].token])
  }

  ghost predicate Inv(cfg: Config, s: System) {
    && Truthful(s.disk, s.minted)
    && (forall t :: t in s.minted ==> t !in StaticTokens(cfg, s.disk))
    && (forall i :: 0 <= i < |s.accepted| ==> s.accepted[i].0 in s.disk.consumed)
    && (forall i, j :: 0 <= i < j < |s.accepted| ==> s.accepted[i].0 != s.accepted[j].0)
    && (forall i :: 0 <= i < |s.accepted| ==> RightOwner(cfg, s, s.accepted[i]))
  }

  ghost predicate RightOwner(cfg: Config, s: System, entry: (Token, Option<Owner>)) {
    match entry.1
    case Some(owner) => entry.0 in s.minted && s.minted[entry.0] == owner
    case None => entry.0 in StaticTokens(cfg, s.disk)
  }

  lemma {:induction false} FromLinesTruthful(lines: seq<Line>, consumed: set<Token>, minted: map<Token, Owner>)
    requires forall i :: 0 <= i < |lines| && lines[i].Minted? ==>
      lines[i].token in minted && lines[i].meta.owner == minted[lines[i].token]
    ensures var m := FromLines(lines, consumed);
      forall t :: t in m ==> t !in consumed && t in minted && m[t].owner == minted[t]
  {
    if lines != [] {
      FromLinesTruthful(lines[..|lines| - 1], consumed, minted);
    }
  }

  /** What is loaded is alive and truthful. */
  lemma LoadTruthful(cfg: Config, d: Disk, now: real, minted: map<Token, Owner>)
    requires Truthful(d, minted)
    ensures var m := LoadIssued(cfg, d, now);
      forall t :: t in m ==> Alive(m[t], now) && t in minted && m[t].owner == minted[t]
  {
    FromLinesTruthful(d.lines, d.consumed, minted);
  }

  /** Lines and static tokens when a line is added. */
  lemma StaticAppend(cfg: Config, d: Disk, line: Line)
    requires !line.Plain?
    ensures StaticTokens(cfg, AppendLine(cfg, d, line)) == StaticTokens(cfg, d)
  {
    var e := AppendLine(cfg, d, line);
    assert forall i :: 0 <= i < |d.lines| ==> e.lines[i] == d.lines[i];
    assert PlainTokens(e.lines) == PlainTokens(d.lines) by {
      assert forall t :: t in PlainTokens(d.lines) ==> t in PlainTokens(e.lines) by {
        forall t | t in PlainTokens(d.lines) ensures t in PlainTokens(e.lines) {
          var i :| 0 <= i < |d.lines| && d.lines[i].Plain? && d.lines[i].token == t;
          assert e.lines[i].token == t;
        }
      }
    }
  }

  /** `e` comes from `d` by writes that keep it truthful and only add to the consumed tokens. */
  ghost predicate Keeps(cfg: Config, d: Disk, e: Disk, minted: map<Token, Owner>) {
    Truthful(e, minted) && StaticTokens(cfg, e) == StaticTokens(cfg, d) && d.consumed <= e.consumed
  }

  lemma WritesKeep(cfg: Config, d: Disk, issued: map<Token, Meta>, now: real, token: Token, minted: map<Token, Owner>)
    requires Truthful(d, minted)
    requires forall t :: t in issued ==> t in minted && issued[t].owner == minted[t]
    ensures Keeps(cfg, d, SaveIssued(d, issued, now), minted)
    ensures Keeps(cfg, d, SaveConsumed(d, token), minted)
    ensures Keeps(cfg, d, AppendLine(cfg, d, Consumed(token)), minted)
  {
    StaticAppend(cfg, d, Consumed(token));
    assert StaticTokens(cfg, SaveIssued(d, issued, now)) == StaticTokens(cfg, d);
    assert StaticTokens(cfg, SaveConsumed(d, token)) == StaticTokens(cfg, d);
  }

  /** A consumption keeps the disk truthful and only ever adds to the consumed tokens. */
  lemma ConsumeKeeps(cfg: Config, d: Disk, token: Token, at: Clock, writes: nat, minted: map<Token, Owner>)
    requires Truthful(d, minted)
    ensures Keeps(cfg, d, Consume(cfg, d, token, at, writes).0, minted)
  {
    var left := LoadIssued(cfg, d, at.load) - {token};
    assert forall t :: t in left ==> t in minted && left[t].owner == minted[t] by {
      LoadTruthful(cfg, d, at.load, minted);
    }
    var d1 := SaveIssued(d, left, at.save);
    var d2 := SaveConsumed(d1, token);
    WritesKeep(cfg, d, left, at.save, token, minted);
    WritesKeep(cfg, d1, left, at.save, token, minted);
    WritesKeep(cfg, d2, left, at.save, token, minted);
    var out := Consume(cfg, d, token, at, writes).0;
    assert out == d || out == d1 || out == d2 || out == AppendLine(cfg, d2, Consumed(token)) || out == SaveConsumed(d, token);
  }

  /** It accepts only a token that was not consumed, that is from then on, and for the owner it was drawn for. */
  lemma ConsumeAccepts(cfg: Config, d: Disk, token: Token, at: Clock, writes: nat, minted: map<Token, Owner>)
    requires Truthful(d, minted) && Consume(cfg, d, token, at, writes).1.Accepted?
    ensures token !in d.consumed && token in Consume(cfg, d, token, at, writes).0.consumed
    ensures match Consume(cfg, d, token, at, writes).1.owner
      case Some(owner) => token in minted && minted[token] == owner
      case None => token in StaticTokens(cfg, d)
    ensures var (e, answer) := Consume(cfg, d, token, at, writes);
      && e.consumed == d.consumed + {token}
      && (answer.owner.Some? ==> token !in e.issued)
      && (answer.owner.None? ==> e.issued == d.issued)
      && e.lines == if answer.owner.Some? && cfg.file && cfg.append then d.lines + [Consumed(token)] else d.lines
  {
    LoadTruthful(cfg, d, at.again, minted);
  }

  /** The disk says `meta` about the token. */
  ghost predicate SaidOf(cfg: Config, d: Disk, token: Token, meta: Meta) {
    || (token in d.issued && d.issued[token] == meta)
    || (cfg.file && Minted(token, meta) in d.lines)
  }

  lemma {:induction false} FromLinesSaid(lines: seq<Line>, consumed: set<Token>)
    ensures var m := FromLines(lines, consumed);
      forall t :: t in m ==> t != "" && t !in consumed && Minted(t, m[t]) in lines
  {
    if lines != [] {
      FromLinesSaid(lines[..|lines| - 1], consumed);
    }
  }

  lemma LoadSaid(cfg: Config, d: Disk, now: real)
    ensures var m := LoadIssued(cfg, d, now);
      forall t :: t in m ==> SaidOf(cfg, d, t, m[t]) && (m[t].expires.None? || now <= m[t].expires.value)
  {
    FromLinesSaid(d.lines, d.consumed);
  }

  /** A token is accepted for an owner only if the disk names that owner, and a time of expiry that has not passed, or
      none. */
  lemma AcceptedInTime(cfg: Config, d: Disk, token: Token, at: Clock, writes: nat) returns (meta: Meta)
    requires Consume(cfg, d, token, at, writes).1.Accepted? && Consume(cfg, d, token, at, writes).1.owner.Some?
    ensures SaidOf(cfg, d, token, meta) && meta.owner == Consume(cfg, d, token, at, writes).1.owner.value
    ensures meta.owner.user != "" && (meta.expires.None? || at.again <= meta.expires.value)
  {
    LoadSaid(cfg, d, at.again);
    meta := LoadIssued(cfg, d, at.again)[token];
  }

  /** A token that is neither fixed nor said to be still good is refused, and nothing is written. */
  lemma ExpiredIsRefused(cfg: Config, d: Disk, token: Token, at: Clock, writes: nat)
    requires forall meta :: SaidOf(cfg, d, token, meta) ==> meta.expires.Some? && meta.expires.value < at.load
    requires token !in cfg.fixed && (cfg.file ==> Plain(token) !in d.lines)
    ensures Consume(cfg, d, token, at, writes) == (d, Refused)
  {
    LoadSaid(cfg, d, at.load);
  }

  /** A token of the environment or a plain line of the tokens file in use, not consumed and not said to be issued, is
      accepted without an owner, and consumed; nothing else changes. */
  lemma FixedIsAccepted(cfg: Config, d: Disk, token: Token, at: Clock, writes: nat)
    requires token != "" && token !in d.consumed && (forall meta :: !SaidOf(cfg, d, token, meta)) && writes > 0
    requires token in cfg.fixed || (cfg.file && Plain(token) in d.lines)
    ensures Consume(cfg, d, token, at, writes) == (d.(consumed := d.consumed + {token}), Accepted(None))
  {
    LoadSaid(cfg, d, at.load);
    if Plain(token) in d.lines {
      var i :| 0 <= i < |d.lines| && d.lines[i] == Plain(token);
      assert d.lines[i].token in PlainTokens(d.lines);
    }
  }

  lemma MintWrites(cfg: Config, d: Disk, issued: map<Token, Meta>, token: Token, meta: Meta, now: real, minted: map<Token, Owner>)
    requires Truthful(d, minted) && token in minted && minted[token] == meta.owner
    requires forall t :: t in issued ==> t in minted && issued[t].owner == minted[t]
    ensures var d1 := SaveIssued(d, issued, now);
      var d2 := AppendLine(cfg, d1, Minted(token, meta));
      Keeps(cfg, d, d1, minted) && Keeps(cfg, d, d2, minted) && d1.consumed == d2.consumed == d.consumed
  {
    WritesKeep(cfg, d, issued, now, token, minted);
    StaticAppend(cfg, SaveIssued(d, issued, now), Minted(token, meta));
  }

  /** What was true before a new token was drawn is true after. */
  lemma DrawnIsNew(cfg: Config, d: Disk, token: Token, meta: Meta, now: real, minted: map<Token, Owner>)
    requires Truthful(d, minted) && token !in minted
    ensures var more := minted[token := meta.owner];
      var issued := LoadIssued(cfg, d, now)[token := meta];
      Keeps(cfg, d, d, more) && forall t :: t in issued ==> t in more && issued[t].owner == more[t]
  {
    LoadTruthful(cfg, d, now, minted);
  }

  /** The disk is right before, between and after the two writes. */
  lemma MintDisks(cfg: Config, d: Disk, token: Token, meta: Meta, at: Clock, minted: map<Token, Owner>)
    requires Truthful(d, minted) && token !in minted
    ensures var more := minted[token := meta.owner];
      var d1 := SaveIssued(d, LoadIssued(cfg, d, at.again)[token := meta], at.save);
      var d2 := AppendLine(cfg, d1, Minted(token, meta));
      && Keeps(cfg, d, d, more) && Keeps(cfg, d, d1, more) && Keeps(cfg, d, d2, more)
      && d1.consumed == d2.consumed == d.consumed
  {
    DrawnIsNew(cfg, d, token, meta, at.again, minted);
    var issued := LoadIssued(cfg, d, at.again)[token := meta];
    MintWrites(cfg, d, issued, token, meta, at.save, minted[token := meta.owner]);
  }

  lemma MintSafe(cfg: Config, d: Disk, step: Step, minted: map<Token, Owner>)
    requires Truthful(d, minted) && step.DoMint? && step.token !in minted
    ensures var after := Mint(cfg, d, step.owner, step.ttl, step.token, step.at, step.writes).0;
      Keeps(cfg, d, after, minted[step.token := step.owner]) && after.consumed == d.consumed
    ensures var (after, ok) := Mint(cfg, d, step.owner, step.ttl, step.token, step.at, step.writes);
      && (ok <==> step.owner.user != "" && step.writes >= 2)
      && (step.owner.user == "" || step.writes == 0 ==> after == d)
      && (ok && cfg.file && cfg.append ==>
           |after.lines| == |d.lines| + 1 && after.lines[|d.lines|].Minted? && after.lines[|d.lines|].token == step.token
           && after.lines[|d.lines|].meta.owner == step.owner && after.lines[|d.lines|].meta.expires.Some?)
  {
    MintDisks(cfg, d, step.token, Meta(step.owner, Some(step.at.load + Lifetime(step.ttl))), step.at, minted);
  }

  lemma StepSafe(cfg: Config, s: System, step: Step)
    requires Inv(cfg, s) && Enabled(cfg, s, step)
    ensures Inv(cfg, Do(cfg, s, step))
  {
    match step
    case DoMint(_, _, _, _, _) =>
      MintSafe(cfg, s.disk, step, s.minted);
    case DoConsume(token, at, writes) =>
      ConsumeKeeps(cfg, s.disk, token, at, writes, s.minted);
      if Consume(cfg, s.disk, token, at, writes).1.Accepted? {
        ConsumeAccepts(cfg, s.disk, token, at, writes, s.minted);
      }
  }

  ghost predicate Run(cfg: Config, run: seq<System>, steps: seq<Step>) {
    && |run| == |steps| + 1
    && Inv(cfg, run[0])
    && forall i :: 0 <= i < |steps| ==> Enabled(cfg, run[i], steps[i]) && run[i + 1] == Do(cfg, run[i], steps[i])
  }

  /** Over every history, whatever stops where, a token is accepted at most once, and one that was minted only for the
      owner it was minted for. */
  lemma {:induction false} AcceptedOnce(cfg: Config, run: seq<System>, steps: seq<Step>, n: nat)
    requires Run(cfg, run, steps) && n < |run|
    ensures forall i, j :: 0 <= i < j < |run[n].accepted| ==> run[n].accepted[i].0 != run[n].accepted[j].0
    ensures forall i :: 0 <= i < |run[n].accepted| && run[n].accepted[i].0 in run[n].minted ==>
      run[n].accepted[i].1 == Some(run[n].minted[run[n].accepted[i].0])
    ensures Inv(cfg, run[n])
  {
    if n > 0 {
      AcceptedOnce(cfg, run, steps, n - 1);
      StepSafe(cfg, run[n - 1], steps[n - 1]);
    }
    assert forall i :: 0 <= i < |run[n].accepted| ==> RightOwner(cfg, run[n], run[n].accepted[i]);
  }

  // ---- A minted token stays good ----

  ghost predicate Pending(d: Disk, token: Token, meta: Meta) {
    token != "" && token !in d.consumed && token in d.issued && d.issued[token] == meta
  }

  lemma LoadKeeps(cfg: Config, d: Disk, token: Token, meta: Meta, now: real)
    requires Pending(d, token, meta) && Alive(meta, now)
    ensures var m := LoadIssued(cfg, d, now); token in m && m[token] == meta
  {
  }

  /** Requests about other tokens leave it alone until it expires. */
  lemma OthersKeep(cfg: Config, s: System, step: Step, token: Token, meta: Meta)
    requires Enabled(cfg, s, step) && Pending(s.disk, token, meta) && step.token != token && Alive(meta, step.at.save)
    ensures Pending(Do(cfg, s, step).disk, token, meta)
  {
    match step
    case DoMint(owner, ttl, drawn, at, writes) =>
      LoadKeeps(cfg, s.disk, token, meta, at.again);
      SaveKeeps(cfg, s.disk, LoadIssued(cfg, s.disk, at.again)[drawn := Meta(owner, Some(at.load + Lifetime(ttl)))], token, meta, at.save);
    case DoConsume(other, at, writes) =>
      LoadKeeps(cfg, s.disk, token, meta, at.load);
      SaveKeeps(cfg, s.disk, LoadIssued(cfg, s.disk, at.load) - {other}, token, meta, at.save);
  }

  lemma SaveKeeps(cfg: Config, d: Disk, issued: map<Token, Meta>, token: Token, meta: Meta, now: real)
    requires Pending(d, token, meta) && Alive(meta, now) && token in issued && issued[token] == meta
    ensures Pending(SaveIssued(d, issued, now), token, meta)
  {
  }

  /** The token has not expired at `now`. */
  ghost predicate GoodAt(meta: Meta, now: real) {
    meta.expires.Some? ==> now <= meta.expires.value
  }

  lemma {:induction false} StaysPending(cfg: Config, run: seq<System>, steps: seq<Step>, i: nat, j: nat, token: Token, meta: Meta)
    requires Run(cfg, run, steps) && i <= j < |run|
    requires Pending(run[i].disk, token, meta)
    requires forall k :: i <= k < j ==> steps[k].token != token && GoodAt(meta, steps[k].at.save)
    ensures Pending(run[j].disk, token, meta)
    decreases j - i
  {
    if i < j {
      StaysPending(cfg, run, steps, i, j - 1, token, meta);
      OthersKeep(cfg, run[j - 1], steps[j - 1], token, meta);
    }
  }

  /** A token whose minting went through is accepted for its owner the first time it is presented before its lifetime,
      which is at least a minute, is over. */
  lemma MintedIsAccepted(cfg: Config, run: seq<System>, steps: seq<Step>, i: nat, j: nat)
    requires Run(cfg, run, steps) && i < j < |steps|
    requires steps[i].DoMint? && steps[i].owner.user != "" && steps[i].writes >= 1
    requires steps[i].token !in run[i].disk.consumed
    requires forall k :: i < k < j ==> steps[k].token != steps[i].token
    requires steps[j].DoConsume? && steps[j].token == steps[i].token && steps[j].writes >= 3
    requires var lived := if steps[i].ttl > 60.0 then steps[i].ttl else 60.0;
      && (forall k :: i <= k < j ==> steps[k].at.save - steps[i].at.load <= lived)
      && steps[j].at.again - steps[i].at.load <= lived
    ensures run[j + 1].accepted == run[j].accepted + [(steps[i].token, Some(steps[i].owner))]
  {
    var meta := Meta(steps[i].owner, Some(steps[i].at.load + Lifetime(steps[i].ttl)));
    assert run[i + 1] == Do(cfg, run[i], steps[i]);
    assert Alive(meta, steps[i].at.save);
    assert Pending(run[i + 1].disk, steps[i].token, meta);
    StaysPending(cfg, run, steps, i + 1, j, steps[i].token, meta);
    assert Enabled(cfg, run[j], steps[j]);
    LoadKeeps(cfg, run[j].disk, steps[j].token, meta, steps[j].at.load);
    LoadKeeps(cfg, run[j].disk, steps[j].token, meta, steps[j].at.again);
    assert run[j + 1] == Do(cfg, run[j], steps[j]);
  }

  /** Everything the disk says about the token says this time of expiry. */
  ghost predicate Dated(d: Disk, token: Token, end: real) {
    && (token in d.issued ==> d.issued[token].expires == Some(end))
    && (forall meta :: Minted(token, meta) in d.lines ==> meta.expires == Some(end))
  }

  lemma LoadDated(cfg: Config, d: Disk, now: real, token: Token, end: real)
    requires Dated(d, token, end)
    ensures var m := LoadIssued(cfg, d, now); token in m ==> m[token].expires == Some(end)
  {
    LoadSaid(cfg, d, now);
  }

  lemma DatedKept(cfg: Config, s: System, step: Step, token: Token, end: real)
    requires Enabled(cfg, s, step) && token in s.minted && Dated(s.disk, token, end)
    ensures Dated(Do(cfg, s, step).disk, token, end)
  {
    match step
    case DoMint(owner, ttl, drawn, at, writes) => DatedMint(cfg, s.disk, owner, ttl, drawn, at, writes, token, end);
    case DoConsume(other, at, writes) => DatedConsume(cfg, s.disk, other, at, writes, token, end);
  }

  lemma DatedMint(cfg: Config, d: Disk, owner: Owner, ttl: real, drawn: Token, at: Clock, writes: nat, token: Token, end: real)
    requires Dated(d, token, end) && drawn != token
    ensures Dated(Mint(cfg, d, owner, ttl, drawn, at, writes).0, token, end)
  {
    LoadDated(cfg, d, at.again, token, end);
    var meta := Meta(owner, Some(at.load + Lifetime(ttl)));
    DatedWrites(cfg, d, LoadIssued(cfg, d, at.again)[drawn := meta], at.save, Minted(drawn, meta), token, end, {});
  }

  lemma DatedConsume(cfg: Config, d: Disk, other: Token, at: Clock, writes: nat, token: Token, end: real)
    requires Dated(d, token, end)
    ensures Dated(Consume(cfg, d, other, at, writes).0, token, end)
  {
    LoadDated(cfg, d, at.load, token, end);
    DatedWrites(cfg, d, LoadIssued(cfg, d, at.load) - {other}, at.save, Consumed(other), token, end, {other});
  }

  lemma DatedWrites(cfg: Config, d: Disk, issued: map<Token, Meta>, now: real, line: Line, token: Token, end: real,
                    more: set<Token>)
    requires Dated(d, token, end) && (token in issued ==> issued[token].expires == Some(end))
    requires line.Minted? ==> line.token != token
    ensures var d1 := SaveIssued(d, issued, now);
      var d2 := d1.(consumed := d.consumed + more);
      Dated(d1, token, end) && Dated(d2, token, end) && Dated(AppendLine(cfg, d2, line), token, end)
  {
  }

  lemma {:induction false} StaysDated(cfg: Config, run: seq<System>, steps: seq<Step>, i: nat, j: nat)
    requires Run(cfg, run, steps) && i < j < |run| && steps[i].DoMint?
    ensures steps[i].token in run[j].minted
    ensures Dated(run[j].disk, steps[i].token, steps[i].at.load + Lifetime(steps[i].ttl))
    decreases j
  {
    var step := steps[j - 1];
    AcceptedOnce(cfg, run, steps, j - 1);
    assert Enabled(cfg, run[j - 1], step) && run[j] == Do(cfg, run[j - 1], step);
    if i + 1 < j {
      StaysDated(cfg, run, steps, i, j - 1);
      DatedKept(cfg, run[j - 1], step, steps[i].token, steps[i].at.load + Lifetime(steps[i].ttl));
    } else {
      FirstDated(cfg, run[i], step);
    }
  }

  lemma FirstDated(cfg: Config, s: System, step: Step)
    requires Inv(cfg, s) && Enabled(cfg, s, step) && step.DoMint?
    ensures Dated(Do(cfg, s, step).disk, step.token, step.at.load + Lifetime(step.ttl))
  {
    NothingSaid(s.disk, s.minted, step.token);
    LoadSaid(cfg, s.disk, step.at.again);
  }

  lemma NothingSaid(d: Disk, minted: map<Token, Owner>, token: Token)
    requires Truthful(d, minted) && token !in minted
    ensures token !in d.issued && forall meta :: Minted(token, meta) !in d.lines
  {
    assert forall i :: 0 <= i < |d.lines| && d.lines[i].Minted? ==> d.lines[i].token != token;
  }

  /** And over every history, it is accepted for its owner only before that. */
  lemma AcceptedWhileGood(cfg: Config, run: seq<System>, steps: seq<Step>, i: nat, j: nat, owner: Owner)
    requires Run(cfg, run, steps) && i < j < |steps| && steps[i].DoMint?
    requires steps[j].DoConsume? && steps[j].token == steps[i].token
    requires run[j + 1].accepted == run[j].accepted + [(steps[i].token, Some(owner))]
    ensures owner == steps[i].owner
    ensures steps[j].at.again - steps[i].at.load <= if steps[i].ttl > 60.0 then steps[i].ttl else 60.0
  {
    var token, at := steps[j].token, steps[j].at;
    assert run[j + 1] == Do(cfg, run[j], steps[j]);
    var n := |run[j].accepted|;
    assert run[j + 1].accepted[n] == (token, Some(owner));
    var meta := AcceptedInTime(cfg, run[j].disk, token, at, steps[j].writes);
    StaysDated(cfg, run, steps, i, j);
    AcceptedOnce(cfg, run, steps, j + 1);
    MintedFor(cfg, run, steps, i, j + 1);
  }

  lemma {:induction false} MintedFor(cfg: Config, run: seq<System>, steps: seq<Step>, i: nat, j: nat)
    requires Run(cfg, run, steps) && i < j < |run| && steps[i].DoMint?
    ensures steps[i].token in run[j].minted && run[j].minted[steps[i].token] == steps[i].owner
    decreases j
  {
    assert Enabled(cfg, run[j - 1], steps[j - 1]) && run[j] == Do(cfg, run[j - 1], steps[j - 1]);
    if i + 1 < j {
      MintedFor(cfg, run, steps, i, j - 1);
    }
  }

  /** The last mint line of the token says `meta`. */
  ghost predicate LastMint(lines: seq<Line>, token: Token, meta: Meta) {
    lines != [] &&
    var n := |lines| - 1;
    if lines[n].Minted? && lines[n].token == token then lines[n].meta == meta else LastMint(lines[..n], token, meta)
  }

  lemma {:induction false} FromLinesLast(lines: seq<Line>, consumed: set<Token>, token: Token, meta: Meta)
    requires token != "" && token !in consumed
    ensures LastMint(lines, token, meta)
      <==> token in FromLines(lines, consumed) && FromLines(lines, consumed)[token] == meta
  {
    if lines != [] {
      FromLinesLast(lines[..|lines| - 1], consumed, token, meta);
    }
  }

  /** What a later load makes of the token then. */
  lemma StillLoaded(cfg: Config, d: Disk, token: Token, at: Clock, now: real)
    requires Consume(cfg, d, token, at, 1).1 == Died && token in LoadIssued(cfg, d, at.load)
    ensures var d1 := Consume(cfg, d, token, at, 1).0;
      var m := LoadIssued(cfg, d1, now);
      var lines := FromLines(d.lines, d.consumed);
      && d1.consumed == d.consumed && d1.lines == d.lines && token != "" && token !in d.consumed
      && (token in m <==> cfg.file && token in lines && GoodAt(lines[token], now))
      && (token in m ==> m[token] == lines[token])
  {
  }

  /** If the process stops between the first two writes of a consumption, a later one that is not stopped accepts the
      token for an owner exactly when the tokens file is in use, and the last mint line of the token names a user and
      has not expired. */
  lemma CrashAfterFirstWrite(cfg: Config, d: Disk, token: Token, at: Clock, later: Clock)
    requires Consume(cfg, d, token, at, 1).1 == Died && later.load <= later.again
    requires token !in cfg.fixed && (cfg.file ==> Plain(token) !in d.lines)
    ensures var d1 := Consume(cfg, d, token, at, 1).0;
      Consume(cfg, d1, token, later, 3).1.Accepted? <==>
        cfg.file && exists meta :: LastMint(d.lines, token, meta) && GoodAt(meta, later.again) && meta.owner.user != ""
  {
    StillLoaded(cfg, d, token, at, later.load);
    StillLoaded(cfg, d, token, at, later.again);
    var lines := FromLines(d.lines, d.consumed);
    forall meta ensures LastMint(d.lines, token, meta) <==> token in lines && lines[token] == meta {
      FromLinesLast(d.lines, d.consumed, token, meta);
    }
    LaterAccepts(cfg, Consume(cfg, d, token, at, 1).0, token, later);
    if token in lines {
      assert LastMint(d.lines, token, lines[token]);
    }
  }

  /** When a consumption that is not stopped accepts a token that is not fixed. */
  lemma LaterAccepts(cfg: Config, d: Disk, token: Token, at: Clock)
    requires token != "" && token !in d.consumed && token !in cfg.fixed && (cfg.file ==> Plain(token) !in d.lines)
    ensures Consume(cfg, d, token, at, 3).1.Accepted? <==>
      && token in LoadIssued(cfg, d, at.load) && token in LoadIssued(cfg, d, at.again)
      && LoadIssued(cfg, d, at.again)[token].owner.user != ""
  {
  }

  /** Without a tokens file the token is gone. */
  lemma LostTokenExample(at: Clock)
    ensures var cfg := Config({}, false, false);
      var d := Disk(map["enr_x" := Meta(Owner("u", ""), None)], {}, []);
      var d1 := Consume(cfg, d, "enr_x", at, 1).0;
      && Consume(cfg, d, "enr_x", at, 1).1 == Died
      && forall later, writes :: Consume(cfg, d1, "enr_x", later, writes).1 == Refused
  {
    var cfg := Config({}, false, false);
    var d := Disk(map["enr_x" := Meta(Owner("u", ""), None)], {}, []);
    assert "enr_x" in LoadIssued(cfg, d, at.load) && "enr_x" in LoadIssued(cfg, d, at.again);
    var d1 := Consume(cfg, d, "enr_x", at, 1).0;
    forall later, writes ensures Consume(cfg, d1, "enr_x", later, writes).1 == Refused {
      LoadSaid(cfg, d1, later.load);
    }
  }

  // ---- The files ----

  /** The files of the store, written one after the other; the process lives for `alive` writes. */
  class Store {
    const cfg: Config
    var issued: map<Token, Meta>
    var consumed: set<Token>
    var lines: seq<Line>

    constructor (cfg: Config, disk: Disk)
      ensures this.cfg == cfg && OnDisk() == disk
    {
      this.cfg, issued, consumed, lines := cfg, disk.issued, disk.consumed, disk.lines;
    }

    function OnDisk(): Disk
      reads this
    {
      Disk(issued, consumed, lines)
    }

    /** `_consume_token` */
    method ConsumeToken(token: Token, at: Clock, alive: nat) returns (answer: Answer)
      modifies this
      ensures (OnDisk(), answer) == Consume(cfg, old(OnDisk()), token, at, alive)
    {
      if token == "" || token in consumed {
        return Refused;
      }
      var known := LoadIssued(cfg, OnDisk(), at.load);
      if token in known {
        var again := LoadIssued(cfg, OnDisk(), at.again);
        if token !in again || again[token].owner.user == "" {
          return Refused;
        }
        known := known - {token};
        if alive == 0 { return Died; }
        issued := Purged(known, at.save);
        if alive == 1 { return Died; }
        consumed := consumed + {token};
        if alive == 2 { return Died; }
        AppendToFile(Consumed(token));
        return Accepted(Some(again[token].owner));
      }
      if token !in StaticTokens(cfg, OnDisk()) {
        return Refused;
      }
      if alive == 0 { return Died; }
      consumed := consumed + {token};
      return Accepted(None);
    }

    /** `mint_enrollment_token` */
    method MintToken(owner: Owner, ttl: real, token: Token, at: Clock, alive: nat) returns (ok: bool)
      modifies this
      ensures (OnDisk(), ok) == Mint(cfg, old(OnDisk()), owner, ttl, token, at, alive)
    {
      if owner.user == "" {
        return false;
      }
      var meta := Meta(owner, Some(at.load + Lifetime(ttl)));
      var known := LoadIssued(cfg, OnDisk(), at.again);
      if alive == 0 { return false; }
      issued := Purged(known[token := meta], at.save);
      if alive == 1 { return false; }
      AppendToFile(Minted(token, meta));
      return true;
    }

    /** `_append_tokens_file` */
    method AppendToFile(line: Line)
      modifies this`lines
      ensures OnDisk() == AppendLine(cfg, old(OnDisk()), line)
    {
      if cfg.file && cfg.append {
        lines := lines + [line];
      }
    }
  }
}
