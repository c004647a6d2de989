/** What compacting keeps: it is a projection, it can be repeated under any larger limit, and it marks what it cut. */
module CompactorLaws {
  import opened Sequences
  import opened Compactor
  import opened CompactorDicts
  import opened CompactorRows

  // ---- Items ----

  lemma {:induction false} TextsTwice(env: Env, f: Fields, n: nat)
    requires Sane(env)
    ensures First(Texts(env, First(f, n)), n) == Texts(env, First(f, n))
    ensures Texts(env, Texts(env, First(f, n))) == Texts(env, First(f, n))
    ensures Texts(env, First(f, n)).Cons? <==> n > 0 && f.Cons?
  {
    if n > 0 && f.Cons? {
      TextsTwice(env, f.rest, n - 1);
    }
  }

  lemma DataTwice(env: Env, f: Fields)
    requires Sane(env)
    ensures SlimData(env, SlimData(env, f)) == SlimData(env, f) && (SlimData(env, f).Cons? <==> f.Cons?)
  {
    TextsTwice(env, f, 12);
  }

  lemma {:induction false} ValuesTwice(env: Env, f: Fields, n: nat)
    requires Sane(env)
    ensures First(SlimValues(env, First(f, n)), n) == SlimValues(env, First(f, n))
    ensures SlimValues(env, SlimValues(env, First(f, n))) == SlimValues(env, First(f, n))
  {
    if n > 0 && f.Cons? {
      ValuesTwice(env, f.rest, n - 1);
      if f.value.Obj? {
        DataTwice(env, f.value.fields);
      }
      if f.value.Arr? {
        EnoughDigits();
        DecimalShort(|f.value.items|, 19);
      }
    }
  }

  function Pow10(d: nat): nat {
    if d == 0 then 1 else 10 * Pow10(d - 1)
  }

  lemma EnoughDigits()
    ensures Pow10(19) >= 0x8000_0000_0000_0000
  {
    assert Pow10(3) == 1000;
    assert Pow10(6) == 1000_000;
    assert Pow10(9) == 1000_000_000;
    assert Pow10(12) == 1000_000_000_000;
    assert Pow10(15) == 1000_000_000_000_000;
    assert Pow10(17) == 100_000_000_000_000_000;
  }

  /** The text that stands for a list is not cut. */
  lemma {:induction false} DecimalShort(n: nat, d: nat)
    requires d > 0 && n < Pow10(d)
    ensures |Decimal(n)| <= d
  {
    if n >= 10 {
      DecimalShort(n / 10, d - 1);
    }
  }

  lemma {:induction false} GetSelected(keys: seq<string>, f: Fields, more: Fields, key: string)
    ensures Get(Append(Selected(keys, f), more), key) ==
      if key in keys && Get(f, key).Some? && !Get(f, key).value.Null? then Some(ShortMessage(key, Get(f, key).value))
      else Get(more, key)
  {
    if keys != [] {
      GetSelected(keys[1..], f, more, key);
    }
  }

  lemma {:induction false} SelectedTwice(all: seq<string>, keys: seq<string>, f: Fields, more: Fields)
    requires forall k :: k in keys ==> k in all && Get(more, k).None?
    ensures Selected(keys, Append(Selected(all, f), more)) == Selected(keys, f)
    decreases |keys|
  {
    if keys != [] {
      GetSelected(all, f, more, keys[0]);
      SelectedTwice(all, keys[1..], f, more);
    }
  }

  lemma EntryTwice(env: Env, x: Json)
    requires Sane(env) && SlimEntry(env, x).Some?
    ensures SlimEntry(env, SlimEntry(env, x).value) == SlimEntry(env, x)
  {
    var f := x.fields;
    var more := EntryData(env, f);
    var rec := Append(Selected(ENTRY_KEYS, f), more);
    assert forall k :: k in ENTRY_KEYS ==> k != "data";
    SelectedTwice(ENTRY_KEYS, ENTRY_KEYS, f, more);
    GetSelected(ENTRY_KEYS, f, more, "data");
    if more.Cons? {
      DataTwice(env, Get(f, "data").value.fields);
    }
    assert EntryData(env, rec) == more;
  }

  /** A summary of an item is its own summary; of rows, `RowAgain` says which. */
  lemma SlimTwice(env: Env, recipe: Recipe, x: Json)
    requires Sane(env) && Slim(env, recipe, x).Some? && recipe != Rows
    ensures Slim(env, recipe, Slim(env, recipe, x).value) == Slim(env, recipe, x)
  {
    match recipe
    case Entries => EntryTwice(env, x);
    case Records =>
      if x.Obj? {
        ValuesTwice(env, x.fields, 12);
      }
    case Points => PointTwice(x);
    case Packages => PackageTwice(x);
  }

  lemma PointTwice(x: Json)
    requires SlimPoint(x).Some?
    ensures SlimPoint(SlimPoint(x).value) == SlimPoint(x)
  {
    var y := SlimPoint(x).value.fields;
    var unit, time := Present("unit", Get(x.fields, "unit")), Present("timeUnixNano", Get(x.fields, "timeUnixNano"));
    assert Get(y, "name") == Get(x.fields, "name") && Get(y, "value") == Some(y.rest.value);
    var tail := y.rest.rest;
    assert tail == Append(unit, time);
    assert Get(y, "unit") == Get(y.rest, "unit") == Get(tail, "unit");
    assert Get(y, "timeUnixNano") == Get(y.rest, "timeUnixNano") == Get(tail, "timeUnixNano");
    assert unit.Cons? ==> unit.rest == Nil && Append(unit.rest, time) == time;
    assert time.Cons? ==> Get(time.rest, "unit") == None && Get(time, "unit") == None;
    assert tail == (if unit.Cons? then Cons("unit", unit.value, time) else time);
    assert Present("unit", Get(y, "unit")) == unit;
    assert Get(tail, "timeUnixNano") == Get(time, "timeUnixNano");
    assert Get(time, "timeUnixNano") == if time.Cons? then Some(time.value) else None;
    assert Present("timeUnixNano", Get(y, "timeUnixNano")) == time;
  }

  lemma PackageTwice(x: Json)
    requires SlimPackage(x).Some?
    ensures SlimPackage(SlimPackage(x).value) == SlimPackage(x)
  {
    var y := SlimPackage(x).value.fields;
    assert Get(y, "name") == Some(y.value) && Get(y, "version") == Some(y.rest.value);
    assert Get(y, "sha256") == Get(y.rest, "sha256") == Get(y.rest.rest, "sha256");
  }

  // ---- Lists ----

  lemma {:induction false} SlimAllPrefix(env: Env, recipe: Recipe, items: seq<Json>, n: nat)
    requires Sane(env) && n <= |SlimAll(env, recipe, items)| && recipe != Rows
    ensures SlimAll(env, recipe, SlimAll(env, recipe, items)[..n]) == SlimAll(env, recipe, items)[..n]
    decreases |items|
  {
    if items != [] && n > 0 {
      var x := Slim(env, recipe, items[0]);
      var slim, rest := SlimAll(env, recipe, items), SlimAll(env, recipe, items[1..]);
      if x.Some? {
        SlimTwice(env, recipe, items[0]);
        SlimAllPrefix(env, recipe, items[1..], n - 1);
        assert slim[..n] == [x.value] + rest[..n - 1];
        assert slim[..n][1..] == rest[..n - 1];
      } else {
        assert slim == rest;
        SlimAllPrefix(env, recipe, items[1..], n);
      }
    }
  }

  lemma {:induction false} NothingSlim(env: Env, recipe: Recipe, items: seq<Json>, n: nat)
    requires SlimAll(env, recipe, items) == [] && n <= |items|
    ensures SlimAll(env, recipe, items[..n]) == []
    decreases |items|
  {
    if n > 0 {
      assert items[..n][1..] == items[1..][..n - 1];
      NothingSlim(env, recipe, items[1..], n - 1);
    }
  }

  /** All these rows are their own summaries. */
  predicate AllUnmixed(rows: seq<Json>) {
    forall i :: 0 <= i < |rows| ==> rows[i].Obj? ==> Unmixed(rows[i].fields)
  }

  /** The first `n` summaries of some rows, summarised again: as many, the same if and only if none is mixed, and none is
      mixed any more. */
  lemma {:induction false} RowsAgain(env: Env, items: seq<Json>, n: nat)
    requires n <= |SlimAll(env, Rows, items)|
    ensures var kept := SlimAll(env, Rows, items)[..n];
      var again := SlimAll(env, Rows, kept);
      && |again| == n
      && (again == kept <==> AllUnmixed(kept))
      && AllUnmixed(again)
    decreases |items|
  {
    if items != [] && n > 0 {
      var x := SlimRow(env, items[0]);
      var slim, rest := SlimAll(env, Rows, items), SlimAll(env, Rows, items[1..]);
      if x.Some? {
        RowsAgain(env, items[1..], n - 1);
        assert slim[..n] == [x.value] + rest[..n - 1];
        OneMoreRow(env, items[0], rest[..n - 1]);
      } else {
        assert slim == rest;
        RowsAgain(env, items[1..], n);
      }
    }
  }

  lemma OneMoreRow(env: Env, x: Json, more: seq<Json>)
    requires SlimRow(env, x).Some?
    requires var again := SlimAll(env, Rows, more);
      |again| == |more| && (again == more <==> AllUnmixed(more)) && AllUnmixed(again)
    ensures var kept := [SlimRow(env, x).value] + more;
      var again := SlimAll(env, Rows, kept);
      |again| == |kept| && (again == kept <==> AllUnmixed(kept)) && AllUnmixed(again)
  {
    var y := SlimRow(env, x).value;
    var again := SlimAll(env, Rows, more);
    RowAgain(env, x);
    assert ([y] + more)[1..] == more;
    var first := SlimRow(env, y).value;
    assert SlimAll(env, Rows, [y] + more) == [first] + again;
    UnmixedCons(y, more);
    UnmixedCons(first, again);
    assert [first] + again == [y] + more <==> first == y && again == more by {
      assert ([first] + again)[0] == first && ([first] + again)[1..] == again;
      assert ([y] + more)[0] == y && ([y] + more)[1..] == more;
    }
  }

  lemma UnmixedCons(x: Json, rows: seq<Json>)
    ensures AllUnmixed([x] + rows) <==> (x.Obj? ==> Unmixed(x.fields)) && AllUnmixed(rows)
  {
    var all := [x] + rows;
    assert all[0] == x && forall i :: 0 <= i < |rows| ==> rows[i] == all[i + 1];
    assert forall i :: 0 < i < |all| ==> all[i] == rows[i - 1];
  }

  /** A sample is a prefix of what it is taken from, as long as it may be. */
  lemma SamplePrefix(env: Env, recipe: Recipe, items: seq<Json>, limit: nat)
    ensures var source := Source(env, recipe, items);
      var (kept, omitted) := Sample(source, limit);
      && kept == source[..|kept|]
      && |kept| == (if |source| < limit then |source| else limit)
      && |kept| + omitted == |source|
  {
  }

  /** And it is its own source, but for mixed rows. */
  lemma SampleTwice(env: Env, recipe: Recipe, items: seq<Json>, limit: nat)
    requires Sane(env)
    ensures var kept := Sample(Source(env, recipe, items), limit).0;
      var again := Source(env, recipe, kept);
      && |again| == |kept|
      && (again == kept <==> (recipe == Rows ==> AllUnmixed(kept)))
      && (recipe == Rows ==> AllUnmixed(again))
      && Source(env, recipe, again) == again
  {
    var source := Source(env, recipe, items);
    var kept := Sample(source, limit).0;
    var slim := SlimAll(env, recipe, items);
    SamplePrefix(env, recipe, items, limit);
    if recipe == Rows {
      RowsAgain(env, items, |kept|);
      RowsAgain(env, kept, |kept|);
      assert SlimAll(env, Rows, kept)[..|kept|] == SlimAll(env, Rows, kept);
    } else if recipe == Entries && slim == [] {
      NothingSlim(env, recipe, items, |kept|);
    } else {
      SlimAllPrefix(env, recipe, items, |kept|);
      assert kept == slim[..|kept|];
    }
  }

  // ---- Fields ----

  /** No row list in the object, at any depth the compactor reaches, holds a mixed row. */
  predicate Settled(f: Fields)
    decreases f, 1
  {
    f.Cons? ==> SettledField(f.key, f.value) && Settled(f.rest)
  }

  predicate SettledField(key: string, value: Json)
    decreases value, 0
  {
    match value
    case Arr(items) => key == "rows" ==> AllUnmixed(items)
    case Obj(fields) =>
      if key == "channels" then SettledChannels(fields) else if key == "event_data" then true else Settled(fields)
    case _ => true
  }

  predicate SettledChannels(f: Fields)
    decreases f, 0
  {
    f.Cons? ==> (f.value.Obj? ==> Settled(f.value.fields)) && SettledChannels(f.rest)
  }

  /** Compacting again under limit `m` cuts nothing in this field, leaves it alone exactly if it is settled, and settles
      it for good. */
  predicate Tame(env: Env, m: nat, key: string, value: Json) {
    var p := Shrink(env, m, key, value);
    && p.omitted == 0
    && (p.value == value <==> SettledField(key, value))
    && SettledField(key, p.value)
    && Shrink(env, m, key, p.value).value == p.value
    && Shrink(env, m, key, p.value).omitted == 0
    && (Shrink(env, m, key, p.value).mark ==> p.mark)
  }

  predicate AllTame(env: Env, m: nat, f: Fields) {
    f.Cons? ==> Tame(env, m, f.key, f.value) && AllTame(env, m, f.rest)
  }

  /** Each field compacted again. */
  function Redone(env: Env, m: nat, f: Fields): Fields {
    match f
    case Nil => Nil
    case Cons(k, v, rest) => Cons(k, Shrink(env, m, k, v).value, Redone(env, m, rest))
  }

  /** Some field marks the object. */
  predicate Marks(env: Env, m: nat, f: Fields) {
    f.Cons? && (Shrink(env, m, f.key, f.value).mark || Marks(env, m, f.rest))
  }

  lemma {:induction false} SetTame(env: Env, m: nat, f: Fields, key: string, v: Json)
    requires AllTame(env, m, f) && Tame(env, m, key, v)
    ensures AllTame(env, m, Set(f, key, v))
    ensures Marks(env, m, Set(f, key, v)) ==> Marks(env, m, f) || Shrink(env, m, key, v).mark
  {
    if f.Cons? && f.key != key {
      SetTame(env, m, f.rest, key, v);
    }
  }

  lemma {:induction false} GetRedone(env: Env, m: nat, f: Fields, key: string)
    ensures Get(Redone(env, m, f), key) ==
      if Has(f, key) then Some(Shrink(env, m, key, Get(f, key).value).value) else None
  {
    if f.Cons? && f.key != key {
      GetRedone(env, m, f.rest, key);
    }
  }

  /** What is redone is the same exactly if it was settled, and settled in any case. */
  lemma {:induction false} RedoneSame(env: Env, m: nat, f: Fields)
    requires AllTame(env, m, f)
    ensures Redone(env, m, f) == f <==> Settled(f)
    ensures Settled(Redone(env, m, f)) && AllTame(env, m, Redone(env, m, f))
    ensures Marks(env, m, Redone(env, m, f)) ==> Marks(env, m, f)
  {
    if f.Cons? {
      RedoneSame(env, m, f.rest);
    }
  }

  /** A pass over tame fields redoes them one by one. */
  lemma {:induction false} PassRedoes(env: Env, m: nat, todo: Fields, out: Fields, t: bool)
    requires AllTame(env, m, todo) && Dict(todo) && forall k :: Has(todo, k) ==> !Has(out, k)
    ensures Pass(env, m, todo, out, t) == (Append(out, Redone(env, m, todo)), t || Marks(env, m, todo))
  {
    if todo.Nil? {
      AppendNil(out);
    } else {
      var p := Shrink(env, m, todo.key, todo.value);
      var next := Set(out, todo.key, p.value);
      forall k | Has(todo.rest, k) ensures !Has(next, k) {
        GetSet(out, todo.key, p.value, k);
        assert Has(todo, k);
      }
      assert Has(todo, todo.key);
      PassRedoes(env, m, todo.rest, next, t || p.mark);
      AppendOne(out, todo.key, p.value, Redone(env, m, todo.rest));
    }
  }

  // ---- Compacting again ----

  /** A result of one compaction under `l`, compacted under any `m >= l`, is redone field by field; it stands if and only
      if it is settled, and after that it always does. */
  lemma {:induction false} CompactAgain(env: Env, l: nat, m: nat, f: Fields)
    requires Sane(env) && Proper(f) && l <= m
    ensures var r := Compact(env, l, f);
      var again := Compact(env, m, r);
      && (again == r <==> Settled(r))
      && Settled(again) && Compact(env, m, again) == again
      && (Truthy(Get(again, "truncated")) ==> Truthy(Get(r, "truncated")))
    decreases f, 1
  {
    var t0 := Truthy(Get(f, "truncated"));
    var (out, t) := Pass(env, l, f, Nil, t0);
    if !t0 {
      FalsyEverywhere(f);
    }
    PassTame(env, l, m, f, Nil, t0);
    if t {
      SetTame(env, m, out, "truncated", Bool(true));
      SetDict(out, "truncated", Bool(true));
      GetSet(out, "truncated", Bool(true), "truncated");
    }
    TameAgain(env, m, Compact(env, l, f));
    TameThrice(env, m, Compact(env, l, f));
  }

  lemma TameThrice(env: Env, m: nat, r: Fields)
    requires AllTame(env, m, r) && Dict(r)
    requires Marks(env, m, r) ==> Truthy(Get(r, "truncated"))
    requires Truthy(Get(r, "truncated")) ==> Get(r, "truncated") == Some(Bool(true))
    ensures Compact(env, m, Redone(env, m, r)) == Redone(env, m, r)
  {
    var again := Redone(env, m, r);
    RedoneSame(env, m, r);
    RedoneSame(env, m, again);
    RedoneDict(env, m, r);
    GetRedone(env, m, r, "truncated");
    TameAgain(env, m, r);
    TameAgain(env, m, again);
  }

  lemma {:induction false} RedoneDict(env: Env, m: nat, f: Fields)
    requires Dict(f)
    ensures Dict(Redone(env, m, f))
  {
    if f.Cons? {
      GetRedone(env, m, f.rest, f.key);
      RedoneDict(env, m, f.rest);
    }
  }

  /** The second compaction of an object with tame fields, marked if one of them marks it. */
  lemma TameAgain(env: Env, m: nat, r: Fields)
    requires AllTame(env, m, r) && Dict(r)
    requires Marks(env, m, r) ==> Truthy(Get(r, "truncated"))
    requires Truthy(Get(r, "truncated")) ==> Get(r, "truncated") == Some(Bool(true))
    ensures Compact(env, m, r) == Redone(env, m, r)
    ensures Redone(env, m, r) == r <==> Settled(r)
    ensures Settled(Redone(env, m, r))
    ensures Truthy(Get(Redone(env, m, r), "truncated")) ==> Truthy(Get(r, "truncated"))
  {
    PassRedoes(env, m, r, Nil, Truthy(Get(r, "truncated")));
    RedoneSame(env, m, r);
    GetRedone(env, m, r, "truncated");
    if Truthy(Get(r, "truncated")) {
      SetSame(Redone(env, m, r), "truncated", Bool(true));
    } else if Has(r, "truncated") {
      ShrinkFalsy(env, m, "truncated", Get(r, "truncated").value);
    }
  }

  /** No field named `truncated` is true. */
  predicate NoTrue(f: Fields) {
    f.Cons? ==> (f.key == "truncated" ==> !Truthy(Some(f.value))) && NoTrue(f.rest)
  }

  lemma {:induction false} FalsyEverywhere(f: Fields)
    requires Dict(f) && !Truthy(Get(f, "truncated"))
    ensures NoTrue(f)
  {
    if f.Cons? {
      if f.key == "truncated" {
        AbsentNoTrue(f.rest);
      } else {
        FalsyEverywhere(f.rest);
      }
    }
  }

  lemma {:induction false} AbsentNoTrue(f: Fields)
    requires !Has(f, "truncated")
    ensures NoTrue(f)
  {
    if f.Cons? {
      AbsentNoTrue(f.rest);
    }
  }

  lemma {:induction false} PassTame(env: Env, l: nat, m: nat, todo: Fields, out: Fields, t: bool)
    requires Sane(env) && ProperValues(todo) && l <= m
    requires AllTame(env, m, out) && Dict(out) && (Marks(env, m, out) || Truthy(Get(out, "truncated")) ==> t)
    requires t || NoTrue(todo)
    ensures var (out', t') := Pass(env, l, todo, out, t);
      AllTame(env, m, out') && Dict(out') && (Marks(env, m, out') || Truthy(Get(out', "truncated")) ==> t')
    decreases todo, 0
  {
    if todo.Cons? {
      var p := Shrink(env, l, todo.key, todo.value);
      ShrinkTame(env, l, m, todo.key, todo.value);
      var next := Set(out, todo.key, p.value);
      SetTame(env, m, out, todo.key, p.value);
      SetDict(out, todo.key, p.value);
      GetSet(out, todo.key, p.value, "truncated");
      if todo.key == "truncated" && !t {
        ShrinkFalsy(env, l, todo.key, todo.value);
      }
      if p.omitted > 0 {
        var name, n := todo.key + "_omitted", Num(p.omitted as real);
        SetTame(env, m, next, name, n);
        SetDict(next, name, n);
        PassTame(env, l, m, todo.rest, Set(next, name, n), t || p.mark);
      } else {
        PassTame(env, l, m, todo.rest, next, t || p.mark);
      }
    }
  }

  /** What is not true does not become true. */
  lemma ShrinkFalsy(env: Env, l: nat, key: string, value: Json)
    requires key == "truncated" && !Truthy(Some(value))
    ensures !Truthy(Some(Shrink(env, l, key, value).value))
  {
  }

  lemma {:induction false} ShrinkTame(env: Env, l: nat, m: nat, key: string, value: Json)
    requires Sane(env) && l <= m && (value.Obj? ==> Proper(value.fields))
    ensures var p := Shrink(env, l, key, value);
      Tame(env, m, key, p.value) && (Shrink(env, m, key, p.value).mark ==> p.mark)
    decreases value
  {
    if value.Arr? && RecipeOf(key).Some? {
      var recipe := RecipeOf(key).value;
      SampleTwice(env, recipe, value.items, LimitOf(recipe, l));
    } else if value.Obj? && key == "channels" {
      ChannelsAgain(env, l, m, value.fields);
    } else if value.Obj? && key == "event_data" {
      DataTwice(env, value.fields);
    } else if value.Obj? {
      CompactAgain(env, l, m, value.fields);
    }
  }

  lemma {:induction false} ChannelsAgain(env: Env, l: nat, m: nat, f: Fields)
    requires Sane(env) && l <= m && ProperValues(f)
    ensures var r := Channels(env, l, f);
      var again := Channels(env, m, r);
      && (again == r <==> SettledChannels(r))
      && SettledChannels(again) && Channels(env, m, again) == again
      && (AnyTruncated(again) ==> AnyTruncated(r))
    decreases f, 0
  {
    if f.Cons? {
      ChannelsAgain(env, l, m, f.rest);
      if f.value.Obj? {
        CompactAgain(env, l, m, f.value.fields);
      }
    }
  }

  /** The scheduler, the exporter and the backend compact one after the other; under one limit that is the same as
      compacting once if and only if the first result holds no mixed row, and always the same as compacting twice. */
  lemma CompactedOnce(env: Env, limit: nat, f: Fields)
    requires Sane(env) && Proper(f)
    ensures var once := Compact(env, limit, f);
      var twice := Compact(env, limit, once);
      (twice == once <==> Settled(once)) && Compact(env, limit, twice) == twice
  {
    CompactAgain(env, limit, limit, f);
  }

  // ---- Mixed rows ----

  /** No row that the compactor reaches has a property named like metadata. */
  predicate Ordinary(env: Env, f: Fields)
    decreases f, 1
  {
    f.Cons? ==> OrdinaryField(env, f.key, f.value) && Ordinary(env, f.rest)
  }

  predicate OrdinaryField(env: Env, key: string, value: Json)
    decreases value, 0
  {
    match value
    case Arr(items) =>
      key == "rows" ==> forall i :: 0 <= i < |items| && items[i].Obj? ==> !NamedMeta(env, PropertyList(items[i].fields))
    case Obj(fields) =>
      if key == "channels" then OrdinaryChannels(env, fields) else if key == "event_data" then true else Ordinary(env, fields)
    case _ => true
  }

  predicate OrdinaryChannels(env: Env, f: Fields)
    decreases f, 0
  {
    f.Cons? ==> (f.value.Obj? ==> Ordinary(env, f.value.fields)) && OrdinaryChannels(env, f.rest)
  }

  lemma {:induction false} SetSettled(f: Fields, key: string, v: Json)
    requires Settled(f) && SettledField(key, v)
    ensures Settled(Set(f, key, v))
  {
    if f.Cons? && f.key != key {
      SetSettled(f.rest, key, v);
    }
  }

  lemma {:induction false} OrdinaryRows(env: Env, items: seq<Json>)
    requires forall i :: 0 <= i < |items| && items[i].Obj? ==> !NamedMeta(env, PropertyList(items[i].fields))
    ensures AllUnmixed(SlimAll(env, Rows, items))
    decreases |items|
  {
    if items != [] {
      var rest := SlimAll(env, Rows, items[1..]);
      OrdinaryRows(env, items[1..]);
      if SlimRow(env, items[0]).Some? {
        OrdinaryRow(env, items[0]);
        assert forall i :: 0 < i < |SlimAll(env, Rows, items)| ==> SlimAll(env, Rows, items)[i] == rest[i - 1];
      }
    }
  }

  /** The condition on the input: without such properties the first result is settled, so compacting again changes
      nothing. */
  lemma {:induction false} OrdinarySettles(env: Env, l: nat, f: Fields)
    requires Ordinary(env, f)
    ensures Settled(Compact(env, l, f))
    decreases f, 1
  {
    var t0 := Truthy(Get(f, "truncated"));
    PassSettles(env, l, f, Nil, t0);
    SetSettled(Pass(env, l, f, Nil, t0).0, "truncated", Bool(true));
  }

  lemma {:induction false} PassSettles(env: Env, l: nat, todo: Fields, out: Fields, t: bool)
    requires Ordinary(env, todo) && Settled(out)
    ensures Settled(Pass(env, l, todo, out, t).0)
    decreases todo, 0
  {
    if todo.Cons? {
      var p := Shrink(env, l, todo.key, todo.value);
      ShrinkSettles(env, l, todo.key, todo.value);
      SetSettled(out, todo.key, p.value);
      var next := Set(out, todo.key, p.value);
      SetSettled(next, todo.key + "_omitted", Num(p.omitted as real));
      PassSettles(env, l, todo.rest,
        if p.omitted > 0 then Set(next, todo.key + "_omitted", Num(p.omitted as real)) else next, t || p.mark);
    }
  }

  lemma {:induction false} ShrinkSettles(env: Env, l: nat, key: string, value: Json)
    requires OrdinaryField(env, key, value)
    ensures SettledField(key, Shrink(env, l, key, value).value)
    decreases value
  {
    if value.Arr? && key == "rows" {
      OrdinaryRows(env, value.items);
      SamplePrefix(env, Rows, value.items, l);
    } else if value.Obj? && key == "channels" {
      ChannelsSettle(env, l, value.fields);
    } else if value.Obj? && key != "event_data" {
      OrdinarySettles(env, l, value.fields);
    }
  }

  lemma {:induction false} ChannelsSettle(env: Env, l: nat, f: Fields)
    requires OrdinaryChannels(env, f)
    ensures SettledChannels(Channels(env, l, f))
    decreases f, 0
  {
    if f.Cons? {
      ChannelsSettle(env, l, f.rest);
      if f.value.Obj? {
        OrdinarySettles(env, l, f.value.fields);
      }
    }
  }

  function Property(name: string, value: Json): Json {
    Obj(Cons("Name", Str(name), Cons("Value", value, Nil)))
  }

  /** A row with the properties `CimClass` and `A` keeps both in its first summary and loses the first in its second. */
  lemma MixedRowChanges(env: Env)
    requires Sane(env)
    ensures var x := Obj(Cons("CimInstanceProperties", Arr([Property("CimClass", Num(1.0)), Property("A", Num(2.0))]), Nil));
      var f := Cons("rows", Arr([x]), Nil);
      && SlimRow(env, x) == Some(Obj(Cons("CimClass", Num(1.0), Cons("A", Num(2.0), Nil))))
      && Compact(env, 12, Compact(env, 12, f)) != Compact(env, 12, f)
  {
    var c, a := Property("CimClass", Num(1.0)), Property("A", Num(2.0));
    var x := Obj(Cons("CimInstanceProperties", Arr([c, a]), Nil));
    var y := Cons("CimClass", Num(1.0), Cons("A", Num(2.0), Nil));
    assert CimProperty(env, c) == Some(("CimClass", Num(1.0))) && CimProperty(env, a) == Some(("A", Num(2.0)));
    assert [c, a][1..] == [a] && [a][1..] == [];
    var one := Cons("CimClass", Num(1.0), Nil);
    assert CimProperties(env, [a], one) == y by {
      assert CimProperties(env, [a], one) == CimProperties(env, [], Set(one, "A", Num(2.0)));
    }
    assert CimProperties(env, [c, a], Nil) == CimProperties(env, [a], one);
    assert RowFields(env, x.fields, y) == y by {
      assert x.fields.key in CIM_META;
    }
    assert SlimRow(env, x) == Some(Obj(y));
    var f := Cons("rows", Arr([x]), Nil);
    assert SlimAll(env, Rows, [x]) == [Obj(y)] by { assert [x][1..] == []; }
    assert RecipeOf("rows") == Some(Rows);
    assert Shrink(env, 12, "rows", Arr([x])) == Piece(Arr([Obj(y)]), 0, false);
    assert Get(f, "truncated") == None;
    assert Set(Nil, "rows", Arr([Obj(y)])) == Cons("rows", Arr([Obj(y)]), Nil);
    assert Pass(env, 12, f, Nil, false) == Pass(env, 12, Nil, Cons("rows", Arr([Obj(y)]), Nil), false);
    assert Compact(env, 12, f) == Cons("rows", Arr([Obj(y)]), Nil);
    assert !Unmixed(y) && !AllUnmixed([Obj(y)]) by {
      assert [Obj(y)][0] == Obj(y);
    }
    assert !Settled(Compact(env, 12, f));
    CompactAgain(env, 12, 12, f);
  }
}
