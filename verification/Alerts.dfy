/** The local alert engine. */
module Alerts {
  import opened Sequences

  type RuleId = string

  datatype Kind = Threshold | Cleared

  datatype Event = Event(rule: RuleId, kind: Kind, at: real)

  datatype Op = Gt | Gte | Lt | Lte | Eq

  /** A rule as configured; None where the field is missing or unreadable. */
  datatype Rule = Rule(id: RuleId, metric: string, op: Option<Op>, threshold: Option<real>)

  predicate Holds(op: Op, value: real, threshold: real) {
    match op
    case Gt => value > threshold
    case Gte => value >= threshold
    case Lt => value < threshold
    case Lte => value <= threshold
    case Eq => value == threshold
  }

  /** What a snapshot says about a rule; None when the rule is skipped. */
  function Reading(rule: Rule, metrics: map<string, real>): Option<bool> {
    if rule.threshold.None? || rule.op.None? || rule.metric == "" || rule.metric !in metrics then None
    else Some(Holds(rule.op.value, metrics[rule.metric], rule.threshold.value))
  }

  /** The events of one rule id. */
  function Of(id: RuleId, log: seq<Event>): seq<Event> {
    if log == [] then []
    else
      var last := log[|log| - 1];
      Of(id, log[..|log| - 1]) + if last.rule == id then [last] else []
  }

  /** The alert of this history is on. */
  predicate Open(history: seq<Event>) {
    history != [] && history[|history| - 1].kind.Threshold?
  }

  /** (threshold+ cleared)*, with or without an open tail: every clear comes right after a threshold. */
  ghost predicate Alternates(history: seq<Event>) {
    forall i :: 0 <= i < |history| && history[i].kind.Cleared? ==> i > 0 && history[i - 1].kind.Threshold?
  }

  ghost predicate Ordered(history: seq<Event>) {
    forall i, j :: 0 <= i < j < |history| ==> history[i].at <= history[j].at
  }

  /** A threshold right after a threshold comes after the cooldown. */
  ghost predicate Cooled(history: seq<Event>, cooldown: real) {
    forall i :: 0 < i < |history| && history[i - 1].kind.Threshold? && history[i].kind.Threshold? ==>
      history[i].at - history[i - 1].at >= cooldown
  }

  /** Two thresholds with no clear between them are a cooldown apart. */
  lemma ThresholdsApart(history: seq<Event>, cooldown: real, i: nat, j: nat)
    requires Cooled(history, cooldown) && Ordered(history) && i < j < |history|
    requires forall k :: i <= k <= j ==> history[k].kind.Threshold?
    ensures history[j].at - history[i].at >= cooldown
  {
    assert history[i + 1 - 1].kind.Threshold?;
    assert history[i + 1].at - history[i + 1 - 1].at >= cooldown;
  }

  lemma OfAppend(id: RuleId, log: seq<Event>, e: Event)
    ensures Of(id, log + [e]) == Of(id, log) + if e.rule == id then [e] else []
  {
    assert (log + [e])[..|log|] == log;
  }

  /** Everything that is promised about one id, given the engine's two tables. */
  ghost predicate Sound(h: seq<Event>, firing: bool, lastFire: Option<real>, clock: real, cooldown: real) {
    && Alternates(h) && Ordered(h) && Cooled(h, cooldown)
    && firing == Open(h)
    && (Open(h) ==> lastFire == Some(h[|h| - 1].at))
    && (forall i :: 0 <= i < |h| ==> h[i].at <= clock)
  }

  /** One more event keeps the promise if it is the one the engine may emit. */
  lemma Extends(h: seq<Event>, firing: bool, lastFire: Option<real>, clock: real, cooldown: real, e: Event)
    requires Sound(h, firing, lastFire, clock, cooldown) && clock <= e.at
    requires e.kind.Threshold? && firing ==> lastFire.Some? && e.at - lastFire.value >= cooldown
    requires e.kind.Cleared? ==> firing
    ensures Sound(h + [e], e.kind.Threshold?, if e.kind.Threshold? then Some(e.at) else lastFire, e.at, cooldown)
  {
    var g := h + [e];
    assert forall i :: 0 <= i < |h| ==> g[i] == h[i];
    assert Alternates(g);
    assert Ordered(g);
    assert Cooled(g, cooldown);
  }

  function Lookup<T>(m: map<RuleId, T>, id: RuleId): Option<T> {
    if id in m then Some(m[id]) else None
  }

  /** The engine's two tables. */
  datatype Tables = Tables(firing: map<RuleId, bool>, lastFire: map<RuleId, real>) {
    predicate Fires(id: RuleId) {
      id in firing && firing[id]
    }
  }

  ghost predicate AllSound(t: Tables, log: seq<Event>, clock: real, cooldown: real) {
    forall id :: Sound(Of(id, log), t.Fires(id), Lookup(t.lastFire, id), clock, cooldown)
  }

  /** What one rule emits, given its reading. */
  function Emitted(t: Tables, id: RuleId, reading: Option<bool>, now: real, cooldown: real): seq<Event> {
    var last := if id in t.lastFire then t.lastFire[id] else 0.0;
    if reading == Some(true) && !(now - last < cooldown && t.Fires(id)) then [Event(id, Threshold, now)]
    else if reading == Some(false) && t.Fires(id) then [Event(id, Cleared, now)]
    else []
  }

  function After(t: Tables, events: seq<Event>): Tables {
    if events == [] then t
    else
      var e := events[0];
      if e.kind.Threshold? then Tables(t.firing[e.rule := true], t.lastFire[e.rule := e.at])
      else Tables(t.firing[e.rule := false], t.lastFire)
  }

  lemma OfEmitted(t: Tables, log: seq<Event>, id: RuleId, reading: Option<bool>, now: real, cooldown: real, other: RuleId)
    ensures var events := Emitted(t, id, reading, now, cooldown);
      Of(other, log + events) == if other == id then Of(id, log) + events else Of(other, log)
  {
    var events := Emitted(t, id, reading, now, cooldown);
    if events == [] {
      assert log + events == log;
    } else {
      OfAppend(other, log, events[0]);
    }
  }

  lemma OwnKept(t: Tables, h: seq<Event>, clock: real, cooldown: real, id: RuleId, reading: Option<bool>, now: real)
    requires Sound(h, t.Fires(id), Lookup(t.lastFire, id), clock, cooldown) && clock <= now
    ensures var events := Emitted(t, id, reading, now, cooldown);
      var next := After(t, events);
      && Sound(h + events, next.Fires(id), Lookup(next.lastFire, id), now, cooldown)
      && (reading.Some? ==> Open(h + events) == reading.value)
  {
    var events := Emitted(t, id, reading, now, cooldown);
    if events != [] {
      Extends(h, t.Fires(id), Lookup(t.lastFire, id), clock, cooldown, events[0]);
    } else {
      assert h + events == h;
    }
  }

  /** The others are not touched. */
  lemma OtherKept(t: Tables, log: seq<Event>, clock: real, cooldown: real, id: RuleId, reading: Option<bool>, now: real,
                  other: RuleId)
    requires Sound(Of(other, log), t.Fires(other), Lookup(t.lastFire, other), clock, cooldown) && clock <= now && other != id
    ensures var events := Emitted(t, id, reading, now, cooldown);
      var next := After(t, events);
      Sound(Of(other, log + events), next.Fires(other), Lookup(next.lastFire, other), now, cooldown)
  {
    OfEmitted(t, log, id, reading, now, cooldown, other);
    SoundLater(Of(other, log), t.Fires(other), Lookup(t.lastFire, other), clock, now, cooldown);
  }

  lemma SoundLater(h: seq<Event>, firing: bool, lastFire: Option<real>, clock: real, now: real, cooldown: real)
    requires Sound(h, firing, lastFire, clock, cooldown) && clock <= now
    ensures Sound(h, firing, lastFire, now, cooldown)
  {
  }

  /** One rule keeps every promise, and its alert is on afterwards exactly if the rule holds now. */
  lemma RuleKeeps(t: Tables, log: seq<Event>, clock: real, cooldown: real, id: RuleId, reading: Option<bool>, now: real)
    requires AllSound(t, log, clock, cooldown) && clock <= now
    ensures var events := Emitted(t, id, reading, now, cooldown);
      && AllSound(After(t, events), log + events, now, cooldown)
      && (reading.Some? ==> Open(Of(id, log + events)) == reading.value)
  {
    var events := Emitted(t, id, reading, now, cooldown);
    var next := After(t, events);
    OfEmitted(t, log, id, reading, now, cooldown, id);
    OwnKept(t, Of(id, log), clock, cooldown, id, reading, now);
    forall other | other != id
      ensures Sound(Of(other, log + events), next.Fires(other), Lookup(next.lastFire, other), now, cooldown)
    {
      OtherKept(t, log, clock, cooldown, id, reading, now, other);
    }
  }

  // ---- What a snapshot means for a rule, without the engine's tables ----

  /** The rule has a metric that was measured, a comparison and a threshold. */
  predicate Applies(rule: Rule, metrics: map<string, real>) {
    rule.op.Some? && rule.threshold.Some? && rule.metric != "" && rule.metric in metrics
  }

  /** `on` says whether the value is beyond the threshold. */
  ghost predicate Crossed(rule: Rule, metrics: map<string, real>, on: bool)
    requires Applies(rule, metrics)
  {
    var value, limit := metrics[rule.metric], rule.threshold.value;
    && (rule.op == Some(Gt) ==> (on <==> limit < value))
    && (rule.op == Some(Gte) ==> (on <==> !(value < limit)))
    && (rule.op == Some(Lt) ==> (on <==> value < limit))
    && (rule.op == Some(Lte) ==> (on <==> !(limit < value)))
    && (rule.op == Some(Eq) ==> (on <==> !(value < limit) && !(limit < value)))
  }

  /** What follows in the history `h` of a rule's id: a threshold if the rule holds and its alert is off or stands for a
      cooldown, a clear if it does not hold and the alert is on, nothing otherwise. */
  ghost predicate Answers(id: RuleId, h: seq<Event>, on: bool, now: real, cooldown: real, more: seq<Event>) {
    && (on && !Open(h) ==> more == [Event(id, Threshold, now)])
    && (on && Open(h) && cooldown <= now - h[|h| - 1].at ==> more == [Event(id, Threshold, now)])
    && (on && Open(h) && now - h[|h| - 1].at < cooldown ==> more == [])
    && (!on && Open(h) ==> more == [Event(id, Cleared, now)])
    && (!on && !Open(h) ==> more == [])
  }

  /** What becomes of the history of a rule that has its id to itself. */
  ghost predicate Follows(rule: Rule, metrics: map<string, real>, before: seq<Event>, after: seq<Event>, now: real,
                          cooldown: real) {
    if Applies(rule, metrics) then
      && Crossed(rule, metrics, Open(after))
      && |before| <= |after| && after[..|before|] == before
      && Answers(rule.id, before, Open(after), now, cooldown, after[|before|..])
    else after == before
  }

  lemma EmittedFollows(rule: Rule, metrics: map<string, real>, t: Tables, h: seq<Event>, clock: real, now: real, cooldown: real)
    requires Sound(h, t.Fires(rule.id), Lookup(t.lastFire, rule.id), clock, cooldown)
    ensures Follows(rule, metrics, h, h + Emitted(t, rule.id, Reading(rule, metrics), now, cooldown), now, cooldown)
  {
    var more := Emitted(t, rule.id, Reading(rule, metrics), now, cooldown);
    assert h + [] == h && (h + more)[..|h|] == h && (h + more)[|h|..] == more;
  }

  class AlertEngine {
    const rules: seq<Rule>
    const cooldown: real
    var tables: Tables           // _firing, _last_fire
    ghost var clock: real
    ghost var log: seq<Event>    // everything ever emitted

    ghost predicate Valid()
      reads this
    {
      AllSound(tables, log, clock, cooldown)
    }

    constructor (rules: seq<Rule>, cooldownSeconds: real, clock: real)
      ensures Valid() && log == [] && this.clock == clock && this.rules == rules
      ensures cooldown == if cooldownSeconds > 0.0 then cooldownSeconds else 0.0
    {
      this.rules := rules;
      cooldown := if cooldownSeconds > 0.0 then cooldownSeconds else 0.0;
      tables, log := Tables(map[], map[]), [];
      this.clock := clock;
    }

    /** `evaluate`: over any run, what Valid says of every id; and for a rule with an id of its own, the alert is on
        afterwards exactly if the value is beyond the threshold, and is raised again exactly when it is due. */
    method Evaluate(metrics: map<string, real>, now: real) returns (events: seq<Event>)
      requires Valid() && clock <= now
      modifies this`tables, this`clock, this`log
      ensures Valid() && clock == now && log == old(log) + events
      ensures forall i :: 0 <= i < |rules| && Own(rules, i) ==>
        Follows(rules[i], metrics, Of(rules[i].id, old(log)), Of(rules[i].id, log), now, cooldown)
      ensures forall id :: Unknown(rules, |rules|, id) ==> Of(id, log) == Of(id, old(log))
    {
      events := [];
      assert log + [] == log;
      for n := 0 to |rules|
        invariant Valid() && clock <= now && log == old(log) + events
        invariant n > 0 ==> clock == now
        invariant forall i :: 0 <= i < n && Own(rules, i) ==>
          Follows(rules[i], metrics, Of(rules[i].id, old(log)), Of(rules[i].id, log), now, cooldown)
        invariant forall id :: Unknown(rules, n, id) ==> Of(id, log) == Of(id, old(log))
      {
        var some := EvaluateRule(n, metrics, now);
        events := events + some;
      }
      StillSound(tables, log, clock, now, cooldown);
      clock := now;
    }

    /** One round of its loop. */
    method EvaluateRule(n: nat, metrics: map<string, real>, now: real) returns (events: seq<Event>)
      requires Valid() && clock <= now && n < |rules|
      modifies this`tables, this`clock, this`log
      ensures Valid() && clock == now && log == old(log) + events
      ensures Follows(rules[n], metrics, Of(rules[n].id, old(log)), Of(rules[n].id, log), now, cooldown)
      ensures forall id :: id != rules[n].id ==> Of(id, log) == Of(id, old(log))
    {
      var id, reading := rules[n].id, Reading(rules[n], metrics);
      RuleKeeps(tables, log, clock, cooldown, id, reading, now);
      EmittedFollows(rules[n], metrics, tables, Of(id, log), clock, now, cooldown);
      OfEmitted(tables, log, id, reading, now, cooldown, id);
      events := Emitted(tables, id, reading, now, cooldown);
      forall other | other != id ensures Of(other, log + events) == Of(other, log) {
        OfEmitted(tables, log, id, reading, now, cooldown, other);
      }
      tables := After(tables, events);
      log := log + events;
      clock := now;
    }
  }

  /** None of the first `n` rules has this id. */
  ghost predicate Unknown(rules: seq<Rule>, n: nat, id: RuleId)
    requires n <= |rules|
  {
    forall i :: 0 <= i < n ==> rules[i].id != id
  }

  /** No other rule shares the id. */
  ghost predicate Own(rules: seq<Rule>, i: nat)
    requires i < |rules|
  {
    forall j :: 0 <= j < |rules| && j != i ==> rules[j].id != rules[i].id
  }

  lemma StillSound(t: Tables, log: seq<Event>, clock: real, now: real, cooldown: real)
    requires AllSound(t, log, clock, cooldown) && clock <= now
    ensures AllSound(t, log, now, cooldown)
  {
    forall id ensures Sound(Of(id, log), t.Fires(id), Lookup(t.lastFire, id), now, cooldown) {
      assert Sound(Of(id, log), t.Fires(id), Lookup(t.lastFire, id), clock, cooldown);
    }
  }
}
