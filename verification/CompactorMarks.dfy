/** When a summary says `truncated`, and what that says about the choice of the limit. */
module CompactorMarks {
  import opened Sequences
  import opened Compactor
  import opened CompactorDicts
  import opened CompactorLaws

  // ---- Marks ----

  /** The object came marked, or some list in it, at any depth the compactor reaches, is longer than its sample. */
  predicate Marked(env: Env, l: nat, f: Fields)
    decreases f, 1
  {
    Truthy(Get(f, "truncated")) || MarkedIn(env, l, f)
  }

  predicate MarkedIn(env: Env, l: nat, f: Fields)
    decreases f, 0
  {
    f.Cons? && (FieldMarked(env, l, f.key, f.value) || MarkedIn(env, l, f.rest))
  }

  predicate FieldMarked(env: Env, l: nat, key: string, value: Json)
    decreases value
  {
    match value
    case Arr(items) => RecipeOf(key).Some? && |Source(env, RecipeOf(key).value, items)| > LimitOf(RecipeOf(key).value, l)
    case Obj(fields) =>
      if key == "channels" then ChannelMarked(env, l, fields)
      else if key == "event_data" then false
      else Marked(env, l, fields)
    case _ => false
  }

  predicate ChannelMarked(env: Env, l: nat, f: Fields)
    decreases f, 0
  {
    f.Cons? && ((f.value.Obj? && Marked(env, l, f.value.fields)) || ChannelMarked(env, l, f.rest))
  }

  /** The summary says `truncated` exactly when the object came marked or something in it was cut, at any depth. */
  lemma {:induction false} MarkedExactly(env: Env, l: nat, f: Fields)
    requires Proper(f)
    ensures Truthy(Get(Compact(env, l, f), "truncated")) <==> Marked(env, l, f)
    ensures Marked(env, l, f) ==> Get(Compact(env, l, f), "truncated") == Some(Bool(true))
    decreases f, 1
  {
    var t0 := Truthy(Get(f, "truncated"));
    if !t0 {
      FalsyEverywhere(f);
    }
    PassMarks(env, l, f, Nil, t0);
    GetSet(Pass(env, l, f, Nil, t0).0, "truncated", Bool(true), "truncated");
  }

  lemma {:induction false} PassMarks(env: Env, l: nat, todo: Fields, out: Fields, t: bool)
    requires ProperValues(todo) && (t || NoTrue(todo)) && (Truthy(Get(out, "truncated")) ==> t)
    ensures var (out', t') := Pass(env, l, todo, out, t);
      t' == (t || MarkedIn(env, l, todo)) && (Truthy(Get(out', "truncated")) ==> t')
    decreases todo, 0
  {
    if todo.Cons? {
      var p := Shrink(env, l, todo.key, todo.value);
      ShrinkMarks(env, l, todo.key, todo.value);
      var next := Set(out, todo.key, p.value);
      GetSet(out, todo.key, p.value, "truncated");
      if p.omitted > 0 {
        GetSet(next, todo.key + "_omitted", Num(p.omitted as real), "truncated");
        PassMarks(env, l, todo.rest, Set(next, todo.key + "_omitted", Num(p.omitted as real)), t || p.mark);
      } else {
        PassMarks(env, l, todo.rest, next, t || p.mark);
      }
    }
  }

  lemma {:induction false} ShrinkMarks(env: Env, l: nat, key: string, value: Json)
    requires value.Obj? ==> Proper(value.fields)
    ensures Shrink(env, l, key, value).mark <==> FieldMarked(env, l, key, value)
    decreases value
  {
    if value.Obj? && key == "channels" {
      ChannelMarks(env, l, value.fields);
    } else if value.Obj? && key != "event_data" {
      MarkedExactly(env, l, value.fields);
    }
  }

  lemma {:induction false} ChannelMarks(env: Env, l: nat, f: Fields)
    requires ProperValues(f)
    ensures AnyTruncated(Channels(env, l, f)) <==> ChannelMarked(env, l, f)
    decreases f, 0
  {
    if f.Cons? {
      ChannelMarks(env, l, f.rest);
      if f.value.Obj? {
        MarkedExactly(env, l, f.value.fields);
      }
    }
  }

  // ---- Choosing the limit ----

  /** A summary without a mark has lost nothing to its limit: any larger limit gives the same one. */
  lemma {:induction false} UnmarkedSame(env: Env, l: nat, m: nat, f: Fields)
    requires !Marked(env, l, f) && l <= m && Proper(f)
    ensures Compact(env, m, f) == Compact(env, l, f)
    decreases f, 1
  {
    PassSame(env, l, m, f, Nil, false);
  }

  lemma {:induction false} PassSame(env: Env, l: nat, m: nat, todo: Fields, out: Fields, t: bool)
    requires !MarkedIn(env, l, todo) && l <= m && ProperValues(todo)
    ensures Pass(env, m, todo, out, t) == Pass(env, l, todo, out, t)
    decreases todo, 0
  {
    if todo.Cons? {
      ShrinkSame(env, l, m, todo.key, todo.value);
      PassSame(env, l, m, todo.rest, Set(out, todo.key, Shrink(env, l, todo.key, todo.value).value), t);
    }
  }

  lemma {:induction false} ShrinkSame(env: Env, l: nat, m: nat, key: string, value: Json)
    requires !FieldMarked(env, l, key, value) && l <= m && (value.Obj? ==> Proper(value.fields))
    ensures Shrink(env, m, key, value) == Shrink(env, l, key, value)
    ensures !Shrink(env, l, key, value).mark && Shrink(env, l, key, value).omitted == 0
    decreases value
  {
    if value.Obj? && key == "channels" {
      ChannelMarks(env, l, value.fields);
      ChannelsSame(env, l, m, value.fields);
    } else if value.Obj? && key != "event_data" {
      MarkedExactly(env, l, value.fields);
      UnmarkedSame(env, l, m, value.fields);
    }
  }

  lemma {:induction false} ChannelsSame(env: Env, l: nat, m: nat, f: Fields)
    requires !ChannelMarked(env, l, f) && l <= m && ProperValues(f)
    ensures Channels(env, m, f) == Channels(env, l, f)
    decreases f, 0
  {
    if f.Cons? {
      ChannelsSame(env, l, m, f.rest);
      if f.value.Obj? {
        UnmarkedSame(env, l, m, f.value.fields);
      }
    }
  }

  const LIMITS: seq<nat> := [12, 8, 4, 2]

  /** The limits of `compact_event_for_otlp`, tried in turn; `fits` is the size test of the whole payload. A result cut
      under a smaller limit than the first is marked on top. */
  function Pack(env: Env, fits: Fields -> bool, f: Fields, limits: seq<nat>): Option<Fields> {
    if limits == [] then None
    else
      var r := Compact(env, limits[0], f);
      if fits(r) then Some(if limits[0] < LIMITS[0] then Set(r, "truncated", Bool(true)) else r)
      else Pack(env, fits, f, limits[1..])
  }

  /** Where the search ends: no larger limit fitted. */
  lemma {:induction false} PackedAt(env: Env, fits: Fields -> bool, f: Fields, k: nat) returns (i: nat)
    requires k < 4 && Pack(env, fits, f, LIMITS[k..]).Some?
    ensures k <= i < 4 && fits(Compact(env, LIMITS[i], f))
    ensures forall j :: k <= j < i ==> !fits(Compact(env, LIMITS[j], f))
    ensures Pack(env, fits, f, LIMITS[k..]).value ==
      var r := Compact(env, LIMITS[i], f); if i > 0 then Set(r, "truncated", Bool(true)) else r
    decreases 4 - k
  {
    if fits(Compact(env, LIMITS[k], f)) {
      i := k;
    } else {
      assert LIMITS[k..][1..] == LIMITS[k + 1..];
      i := PackedAt(env, fits, f, k + 1);
    }
  }

  /** The extra mark adds nothing: a result that needed a smaller limit was marked by the cut itself. What is packed
      is the compacted result under one of the limits. */
  lemma PackedIsCompacted(env: Env, fits: Fields -> bool, f: Fields) returns (i: nat)
    requires Proper(f) && Pack(env, fits, f, LIMITS).Some?
    ensures i < 4 && Pack(env, fits, f, LIMITS).value == Compact(env, LIMITS[i], f)
    ensures i > 0 ==> Marked(env, LIMITS[i], f)
    ensures fits(Compact(env, LIMITS[i], f)) && forall j :: 0 <= j < i ==> !fits(Compact(env, LIMITS[j], f))
  {
    assert LIMITS[0..] == LIMITS;
    i := PackedAt(env, fits, f, 0);
    if i > 0 {
      if !Marked(env, LIMITS[i], f) {
        UnmarkedSame(env, LIMITS[i], LIMITS[0], f);
        assert false;
      }
      MarkedExactly(env, LIMITS[i], f);
      SetSame(Compact(env, LIMITS[i], f), "truncated", Bool(true));
    }
  }

  /** It is the one under the first of 12, 8, 4 and 2 that fits, and there is none if none fits. */
  lemma PackedFirst(env: Env, fits: Fields -> bool, f: Fields)
    requires Proper(f)
    ensures var r := (l: nat) => Compact(env, l, f);
      Pack(env, fits, f, LIMITS) ==
        if fits(r(12)) then Some(r(12)) else if fits(r(8)) then Some(r(8))
        else if fits(r(4)) then Some(r(4)) else if fits(r(2)) then Some(r(2)) else None
  {
    if Pack(env, fits, f, LIMITS).Some? {
      var i := PackedIsCompacted(env, fits, f);
      assert LIMITS == [12, 8, 4, 2];
    } else {
      NonePacked(env, fits, f, 0);
      assert LIMITS[0..] == LIMITS && LIMITS[0] == 12 && LIMITS[1] == 8 && LIMITS[2] == 4 && LIMITS[3] == 2;
    }
  }

  lemma {:induction false} NonePacked(env: Env, fits: Fields -> bool, f: Fields, k: nat)
    requires k <= 4 && Pack(env, fits, f, LIMITS[k..]).None?
    ensures forall j :: k <= j < 4 ==> !fits(Compact(env, LIMITS[j], f))
    decreases 4 - k
  {
    if k < 4 {
      assert LIMITS[k..][1..] == LIMITS[k + 1..];
      NonePacked(env, fits, f, k + 1);
    }
  }

  /** Packing what was packed gives it back, in any envelope that has room for it, if it holds no mixed row; and only
      then, where there is room for what comes instead. */
  lemma PackedOnce(env: Env, fits: Fields -> bool, later: Fields -> bool, f: Fields)
    requires Sane(env) && Proper(f) && Pack(env, fits, f, LIMITS).Some?
    ensures var packed := Pack(env, fits, f, LIMITS).value;
      && (later(packed) && Settled(packed) ==> Pack(env, later, packed, LIMITS) == Some(packed))
      && (later(Compact(env, LIMITS[0], packed)) ==>
           (Pack(env, later, packed, LIMITS) == Some(packed) <==> Settled(packed)))
  {
    var i := PackedIsCompacted(env, fits, f);
    CompactAgain(env, LIMITS[i], LIMITS[0], f);
    var packed := Pack(env, fits, f, LIMITS).value;
    var again := Compact(env, LIMITS[0], packed);
    assert later(again) ==> Pack(env, later, packed, LIMITS) == Some(again);
  }
}
