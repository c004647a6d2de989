/** Which fields a summary keeps, and what it notes about the rest. */
module CompactorCounts {
  import opened Sequences
  import opened Compactor
  import opened CompactorDicts
  import opened CompactorLaws

  /** The field of a dictionary after a pass: the last write to it. */
  function Written(env: Env, l: nat, todo: Fields, key: string, now: Option<Json>): Option<Json> {
    match todo
    case Nil => now
    case Cons(k, v, rest) =>
      var p := Shrink(env, l, k, v);
      Written(env, l, rest, key,
        if p.omitted > 0 && k + "_omitted" == key then Some(Num(p.omitted as real))
        else if k == key then Some(p.value) else now)
  }

  lemma {:induction false} PassWrites(env: Env, l: nat, todo: Fields, out: Fields, t: bool, key: string)
    ensures Get(Pass(env, l, todo, out, t).0, key) == Written(env, l, todo, key, Get(out, key))
  {
    if todo.Cons? {
      var p := Shrink(env, l, todo.key, todo.value);
      var next := Set(out, todo.key, p.value);
      GetSet(out, todo.key, p.value, key);
      if p.omitted > 0 {
        GetSet(next, todo.key + "_omitted", Num(p.omitted as real), key);
        PassWrites(env, l, todo.rest, Set(next, todo.key + "_omitted", Num(p.omitted as real)), t || p.mark, key);
      } else {
        PassWrites(env, l, todo.rest, next, t || p.mark, key);
      }
    }
  }

  lemma CompactWrites(env: Env, l: nat, f: Fields, key: string)
    requires key != "truncated"
    ensures Get(Compact(env, l, f), key) == Written(env, l, f, key, None)
  {
    var (out, t) := Pass(env, l, f, Nil, Truthy(Get(f, "truncated")));
    PassWrites(env, l, f, Nil, Truthy(Get(f, "truncated")), key);
    GetSet(out, "truncated", Bool(true), key);
  }

  /** `key` is where the compactor notes how much of some list it left out. */
  predicate IsCount(env: Env, l: nat, f: Fields, key: string) {
    f.Cons? &&
    ((f.key + "_omitted" == key && Shrink(env, l, f.key, f.value).omitted > 0) || IsCount(env, l, f.rest, key))
  }

  lemma {:induction false} WrittenOnce(env: Env, l: nat, f: Fields, key: string, now: Option<Json>)
    requires Dict(f) && !IsCount(env, l, f, key)
    ensures Written(env, l, f, key, now) == if Has(f, key) then Some(Shrink(env, l, key, Get(f, key).value).value) else now
  {
    if f.Cons? {
      var p := Shrink(env, l, f.key, f.value);
      WrittenOnce(env, l, f.rest, key, if f.key == key then Some(p.value) else now);
    }
  }

  /** No field is lost, none is invented, and each becomes its own summary: a scalar stays, a list becomes its sample,
      a dictionary its compaction. Only the notes of what was left out are new. */
  lemma FieldsKept(env: Env, l: nat, f: Fields, key: string)
    requires Dict(f) && key != "truncated" && !IsCount(env, l, f, key)
    ensures Get(Compact(env, l, f), key) ==
      if Has(f, key) then Some(Shrink(env, l, key, Get(f, key).value).value) else None
  {
    CompactWrites(env, l, f, key);
    WrittenOnce(env, l, f, key, None);
  }

  lemma SuffixApart(a: string, b: string)
    ensures a + "_omitted" == b + "_omitted" ==> a == b
  {
    var s, t := a + "_omitted", b + "_omitted";
    assert s[..|s| - 8] == a && t[..|t| - 8] == b;
  }

  lemma {:induction false} OtherCount(env: Env, l: nat, f: Fields, key: string)
    requires !Has(f, key)
    ensures !IsCount(env, l, f, key + "_omitted")
  {
    if f.Cons? {
      SuffixApart(f.key, key);
      OtherCount(env, l, f.rest, key);
    }
  }

  lemma {:induction false} CountWritten(env: Env, l: nat, f: Fields, key: string, now: Option<Json>)
    requires Dict(f) && Has(f, key) && !Has(f, key + "_omitted")
    requires Shrink(env, l, key, Get(f, key).value).omitted > 0
    ensures Written(env, l, f, key + "_omitted", now) == Some(Num(Shrink(env, l, key, Get(f, key).value).omitted as real))
  {
    var p := Shrink(env, l, f.key, f.value);
    if f.key == key {
      OtherCount(env, l, f.rest, key);
      WrittenOnce(env, l, f.rest, key + "_omitted", Some(Num(p.omitted as real)));
    } else {
      SuffixApart(f.key, key);
      CountWritten(env, l, f.rest, key, now);
    }
  }

  /** A list that is cut for the first time is noted with the number of items left out. */
  lemma CountNoted(env: Env, l: nat, f: Fields, key: string)
    requires Dict(f) && Has(f, key) && !Has(f, key + "_omitted")
    requires Shrink(env, l, key, Get(f, key).value).omitted > 0
    ensures Get(Compact(env, l, f), key + "_omitted")
         == Some(Num(Shrink(env, l, key, Get(f, key).value).omitted as real))
  {
    NotTheMark(key);
    CompactWrites(env, l, f, key + "_omitted");
    CountWritten(env, l, f, key, None);
  }

  lemma NotTheMark(key: string)
    ensures key + "_omitted" != "truncated"
  {
    assert (key + "_omitted")[|key|] == '_';
    assert '_' !in "truncated";
  }

  /** `b` comes somewhere after `a`. */
  predicate Follows(f: Fields, a: string, b: string) {
    f.Cons? && if f.key == a then Has(f.rest, b) else Follows(f.rest, a, b)
  }

  lemma {:induction false} LaterWins(env: Env, l: nat, f: Fields, key: string, now: Option<Json>)
    requires Dict(f) && Follows(f, key, key + "_omitted")
    ensures Has(f, key + "_omitted")
    ensures Written(env, l, f, key + "_omitted", now)
         == Some(Shrink(env, l, key + "_omitted", Get(f, key + "_omitted").value).value)
  {
    var p := Shrink(env, l, f.key, f.value);
    if f.key == key {
      OtherCount(env, l, f.rest, key);
      WrittenOnce(env, l, f.rest, key + "_omitted",
        if p.omitted > 0 then Some(Num(p.omitted as real)) else now);
    } else {
      SuffixApart(f.key, key);
      LaterWins(env, l, f.rest, key,
        if f.key == key + "_omitted" then Some(p.value) else now);
    }
  }

  /** A note that stands after its list in the input is not brought up to date: what is cut a second time is not
      counted, and the old note stays. */
  lemma OldCountStays(env: Env, l: nat, f: Fields, key: string, n: real)
    requires Dict(f) && Follows(f, key, key + "_omitted") && Get(f, key + "_omitted") == Some(Num(n))
    ensures Get(Compact(env, l, f), key + "_omitted") == Some(Num(n))
  {
    NotTheMark(key);
    CompactWrites(env, l, f, key + "_omitted");
    LaterWins(env, l, f, key, None);
  }

  lemma {:induction false} SetFollows(f: Fields, a: string, b: string, k: string, v: Json)
    requires Follows(f, a, b)
    ensures Follows(Set(f, k, v), a, b)
  {
    if f.key == a {
      GetSet(f.rest, k, v, b);
    } else if f.key != k {
      SetFollows(f.rest, a, b, k, v);
    }
  }

  lemma {:induction false} BothAppended(f: Fields, a: string, v: Json, b: string, w: Json)
    requires a != b && !Has(f, a) && !Has(f, b)
    ensures Follows(Set(Set(f, a, v), b, w), a, b)
  {
    if f.Cons? {
      BothAppended(f.rest, a, v, b, w);
    }
  }

  lemma {:induction false} PassFollows(env: Env, l: nat, todo: Fields, out: Fields, t: bool, a: string, b: string)
    requires Follows(out, a, b)
    ensures Follows(Pass(env, l, todo, out, t).0, a, b)
  {
    if todo.Cons? {
      var p := Shrink(env, l, todo.key, todo.value);
      var next := Set(out, todo.key, p.value);
      SetFollows(out, a, b, todo.key, p.value);
      if p.omitted > 0 {
        SetFollows(next, a, b, todo.key + "_omitted", Num(p.omitted as real));
        PassFollows(env, l, todo.rest, Set(next, todo.key + "_omitted", Num(p.omitted as real)), t || p.mark, a, b);
      } else {
        PassFollows(env, l, todo.rest, next, t || p.mark, a, b);
      }
    }
  }

  lemma {:induction false} PassDict(env: Env, l: nat, todo: Fields, out: Fields, t: bool)
    requires Dict(out)
    ensures Dict(Pass(env, l, todo, out, t).0)
  {
    if todo.Cons? {
      var p := Shrink(env, l, todo.key, todo.value);
      var next := Set(out, todo.key, p.value);
      SetDict(out, todo.key, p.value);
      SetDict(next, todo.key + "_omitted", Num(p.omitted as real));
      PassDict(env, l, todo.rest,
        if p.omitted > 0 then Set(next, todo.key + "_omitted", Num(p.omitted as real)) else next, t || p.mark);
    }
  }

  /** The note of a list stands behind it. The list's own name may be another list's note (`x_omitted` cut in turn). */
  lemma {:induction false} PassNotes(env: Env, l: nat, todo: Fields, out: Fields, t: bool, key: string)
    requires Has(todo, key) && !Has(todo, key + "_omitted") && Shrink(env, l, key, Get(todo, key).value).omitted > 0
    requires !Has(out, key) && !Has(out, key + "_omitted") && !IsCount(env, l, todo, key) && Dict(todo)
    ensures Follows(Pass(env, l, todo, out, t).0, key, key + "_omitted")
  {
    var p := Shrink(env, l, todo.key, todo.value);
    var next := Set(out, todo.key, p.value);
    var note, n := todo.key + "_omitted", Num(p.omitted as real);
    if todo.key == key {
      BothAppended(out, key, p.value, note, n);
      PassFollows(env, l, todo.rest, Set(next, note, n), t || p.mark, key, note);
    } else {
      SuffixApart(todo.key, key);
      GetSet(out, todo.key, p.value, key);
      GetSet(out, todo.key, p.value, key + "_omitted");
      GetSet(next, note, n, key);
      GetSet(next, note, n, key + "_omitted");
      PassNotes(env, l, todo.rest, if p.omitted > 0 then Set(next, note, n) else next, t || p.mark, key);
    }
  }

  /** So the counts are not conserved over two stages: after a first cut, no second one, under whatever limit, changes
      the note. */
  lemma SecondCutUncounted(env: Env, l: nat, m: nat, f: Fields, key: string)
    requires Dict(f) && Has(f, key) && !Has(f, key + "_omitted") && !IsCount(env, l, f, key)
    requires Shrink(env, l, key, Get(f, key).value).omitted > 0
    ensures Get(Compact(env, m, Compact(env, l, f)), key + "_omitted") == Get(Compact(env, l, f), key + "_omitted")
  {
    var t0 := Truthy(Get(f, "truncated"));
    var out := Pass(env, l, f, Nil, t0).0;
    PassNotes(env, l, f, Nil, t0, key);
    PassDict(env, l, f, Nil, t0);
    SetFollows(out, key, key + "_omitted", "truncated", Bool(true));
    SetDict(out, "truncated", Bool(true));
    CountNoted(env, l, f, key);
    OldCountStays(env, m, Compact(env, l, f), key, Shrink(env, l, key, Get(f, key).value).omitted as real);
  }

  /** The note of a list cut twice is the number of items left out in both cuts if and only if the second limit is not
      below the first, that is, if there was no second cut. */
  lemma NoteIsTotalIff(env: Env, l: nat, m: nat, f: Fields, key: string)
    requires Sane(env) && Dict(f) && Has(f, key) && !Has(f, key + "_omitted") && !IsCount(env, l, f, key)
    requires Shrink(env, l, key, Get(f, key).value).omitted > 0
    ensures RecipeOf(key).Some? && Has(Compact(env, l, f), key)
    ensures var r := Compact(env, l, f);
      var first := Shrink(env, l, key, Get(f, key).value).omitted;
      var second := Shrink(env, m, key, Get(r, key).value).omitted;
      var recipe := RecipeOf(key).value;
      && second == (if LimitOf(recipe, l) <= LimitOf(recipe, m) then 0 else LimitOf(recipe, l) - LimitOf(recipe, m))
      && (Get(Compact(env, m, r), key + "_omitted") == Some(Num((first + second) as real))
          <==> LimitOf(recipe, l) <= LimitOf(recipe, m))
  {
    var recipe, items := RecipeOf(key).value, Get(f, key).value.items;
    FieldsKept(env, l, f, key);
    CountNoted(env, l, f, key);
    SecondCutUncounted(env, l, m, f, key);
    SamplePrefix(env, recipe, items, LimitOf(recipe, l));
    SampleTwice(env, recipe, items, LimitOf(recipe, l));
  }

  lemma {:induction false} RecordsLength(env: Env, items: seq<Json>)
    ensures |SlimAll(env, Records, items)| == |items|
  {
    if items != [] {
      RecordsLength(env, items[1..]);
    }
  }

  /** Thirteen services cut under 12 and then under 8: five are gone, and the note says one. */
  lemma FiveGoneOneNoted(env: Env)
    requires Sane(env)
    ensures var f := Cons("services", Arr(seq(13, i => Str("unit"))), Nil);
      var twice := Compact(env, 8, Compact(env, 12, f));
      && Get(twice, "services").Some? && Get(twice, "services").value.Arr? && |Get(twice, "services").value.items| == 8
      && Get(twice, "services_omitted") == Some(Num(1.0))
  {
    var items := seq(13, i => Str("unit"));
    var f := Cons("services", Arr(items), Nil);
    RecordsLength(env, items);
    assert RecipeOf("services") == Some(Records);
    assert Shrink(env, 12, "services", Arr(items)).omitted == 1;
    assert "services" + "_omitted" == "services_omitted";
    assert |"services"| == 8 && |"services_omitted"| == 16;
    assert f.key != "services_omitted" && f.rest == Nil;
    assert !Has(f.rest, "services_omitted");
    CountNoted(env, 12, f, "services");
    SecondCutUncounted(env, 12, 8, f, "services");
    FieldsKept(env, 12, f, "services");
    var r := Compact(env, 12, f);
    SamplePrefix(env, Records, items, 12);
    RecordsLength(env, Get(r, "services").value.items);
    PassDict(env, 12, f, Nil, Truthy(Get(f, "truncated")));
    SetDict(Pass(env, 12, f, Nil, Truthy(Get(f, "truncated"))).0, "truncated", Bool(true));
    NotACount(env, 8, r, "services");
    FieldsKept(env, 8, r, "services");
  }

  lemma {:induction false} NotACount(env: Env, l: nat, f: Fields, key: string)
    requires |key| == 8 && key[0] != '_'
    ensures !IsCount(env, l, f, key)
  {
    if f.Cons? {
      assert (f.key + "_omitted")[|f.key|] == '_';
      NotACount(env, l, f.rest, key);
    }
  }
}
