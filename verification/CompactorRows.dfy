/** Rows of CIM instances: which summaries are their own summaries. */
module CompactorRows {
  import opened Sequences
  import opened Compactor
  import opened CompactorDicts

  /** A field that is not metadata and has a value. */
  predicate HasInstance(f: Fields) {
    f.Cons? && ((f.key !in CIM_META && !f.value.Null?) || HasInstance(f.rest))
  }

  predicate HasMeta(f: Fields) {
    f.Cons? && (f.key in CIM_META || HasMeta(f.rest))
  }

  /** Not both. */
  predicate Unmixed(f: Fields) {
    !(HasInstance(f) && HasMeta(f))
  }

  lemma {:induction false} WmiTwice(env: Env, v: Json)
    ensures WmiScalar(env, WmiScalar(env, v)) == WmiScalar(env, v)
  {
    if v.Arr? {
      var r := WmiScalar(env, v).items;
      forall i | 0 <= i < |r| ensures WmiScalar(env, r[i]) == r[i] {
        WmiTwice(env, v.items[i]);
      }
      assert WmiScalar(env, Arr(r)).items == r;
    }
  }

  /** The values a flattened row holds. */
  predicate Plain(env: Env, f: Fields) {
    f.Cons? ==> !f.value.Null? && WmiScalar(env, f.value) == f.value && Plain(env, f.rest)
  }

  lemma {:induction false} SetPlain(env: Env, f: Fields, key: string, v: Json)
    requires Plain(env, f) && !v.Null?
    ensures Plain(env, Set(f, key, WmiScalar(env, v)))
  {
    WmiTwice(env, v);
    if f.Cons? && f.key != key {
      SetPlain(env, f.rest, key, v);
    }
  }

  lemma {:induction false} PropertiesPlain(env: Env, items: seq<Json>, out: Fields)
    requires Plain(env, out) && Dict(out)
    ensures Plain(env, CimProperties(env, items, out)) && Dict(CimProperties(env, items, out))
    decreases |items|
  {
    if items != [] {
      var p := CimProperty(env, items[0]);
      if p.Some? {
        SetPlain(env, out, p.value.0, Get(items[0].fields, "Value").value);
        SetDict(out, p.value.0, p.value.1);
        PropertiesPlain(env, items[1..], Set(out, p.value.0, p.value.1));
      } else {
        PropertiesPlain(env, items[1..], out);
      }
    }
  }

  lemma {:induction false} FieldsPlain(env: Env, f: Fields, out: Fields)
    requires Plain(env, out) && Dict(out)
    ensures Plain(env, RowFields(env, f, out)) && Dict(RowFields(env, f, out))
  {
    if f.Cons? {
      if f.key in CIM_META || f.value.Null? || Has(out, f.key) {
        FieldsPlain(env, f.rest, out);
      } else {
        SetPlain(env, out, f.key, f.value);
        SetDict(out, f.key, WmiScalar(env, f.value));
        FieldsPlain(env, f.rest, Set(out, f.key, WmiScalar(env, f.value)));
      }
    }
  }

  // ---- Flattening what was flattened ----

  function NonMeta(f: Fields): Fields {
    match f
    case Nil => Nil
    case Cons(k, v, rest) => if k in CIM_META then NonMeta(rest) else Cons(k, v, NonMeta(rest))
  }

  lemma {:induction false} NoProperties(env: Env, items: seq<Json>, out: Fields)
    requires forall i :: 0 <= i < |items| ==> !items[i].Obj?
    ensures CimProperties(env, items, out) == out
    decreases |items|
  {
    if items != [] {
      NoProperties(env, items[1..], out);
    }
  }

  lemma {:induction false} PlainValue(env: Env, f: Fields, key: string)
    requires Plain(env, f) && Has(f, key)
    ensures WmiScalar(env, Get(f, key).value) == Get(f, key).value
  {
    if f.key != key {
      PlainValue(env, f.rest, key);
    }
  }

  lemma {:induction false} PlainFields(env: Env, f: Fields, out: Fields)
    requires Plain(env, f) && Dict(f) && forall k :: Has(f, k) ==> !Has(out, k)
    ensures RowFields(env, f, out) == Append(out, NonMeta(f))
  {
    if f.Nil? {
      AppendNil(out);
    } else {
      assert Has(f, f.key);
      if f.key in CIM_META {
        assert forall k :: Has(f.rest, k) ==> Has(f, k);
        PlainFields(env, f.rest, out);
      } else {
        forall k | Has(f.rest, k) ensures !Has(Set(out, f.key, f.value), k) {
          GetSet(out, f.key, f.value, k);
          assert Has(f, k);
        }
        PlainFields(env, f.rest, Set(out, f.key, f.value));
        AppendOne(out, f.key, f.value, NonMeta(f.rest));
      }
    }
  }

  lemma {:induction false} NonMetaFacts(env: Env, f: Fields)
    requires Plain(env, f)
    ensures NonMeta(f) == f <==> !HasMeta(f)
    ensures NonMeta(f) == Nil <==> !HasInstance(f)
    ensures !HasMeta(NonMeta(f))
    ensures NonMeta(f) == f || Size(NonMeta(f)) < Size(f)
  {
    if f.Cons? {
      NonMetaFacts(env, f.rest);
    }
  }

  function Size(f: Fields): nat {
    if f.Nil? then 0 else 1 + Size(f.rest)
  }

  /** A flattened row flattened again loses its metadata keys, and nothing else. */
  lemma FlattenAgain(env: Env, f: Fields)
    requires Plain(env, f) && Dict(f)
    ensures FlattenRow(env, Obj(f)) == if NonMeta(f) == Nil then None else Some(Obj(NonMeta(f)))
  {
    var items := PropertyList(f);
    if Has(f, "CimInstanceProperties") {
      PlainValue(env, f, "CimInstanceProperties");
    }
    NoProperties(env, items, Nil);
    PlainFields(env, f, Nil);
  }

  lemma {:induction false} NoFields(env: Env, f: Fields)
    requires RowFields(env, f, Nil) == Nil
    ensures !HasInstance(f)
  {
    if f.Cons? {
      if f.key !in CIM_META && !f.value.Null? {
        KeepsOut(env, f.rest, Set(Nil, f.key, WmiScalar(env, f.value)));
      } else {
        NoFields(env, f.rest);
      }
    }
  }

  lemma {:induction false} KeepsOut(env: Env, f: Fields, out: Fields)
    ensures out.Cons? ==> RowFields(env, f, out).Cons?
  {
    if f.Cons? {
      KeepsOut(env, f.rest, if f.key in CIM_META || f.value.Null? || Has(out, f.key) then out
                            else Set(out, f.key, WmiScalar(env, f.value)));
    }
  }

  /** The summary of a row is its own summary if and only if it does not mix metadata keys with others; and a second
      summary never mixes them. */
  lemma RowAgain(env: Env, x: Json)
    requires SlimRow(env, x).Some?
    ensures var y := SlimRow(env, x).value;
      && y.Obj? && SlimRow(env, y).Some? && SlimRow(env, y).value.Obj?
      && (SlimRow(env, y) == Some(y) <==> Unmixed(y.fields))
      && Unmixed(SlimRow(env, y).value.fields)
  {
    var y := SlimRow(env, x).value;
    var props := CimProperties(env, PropertyList(x.fields), Nil);
    if FlattenRow(env, x).Some? {
      PropertiesPlain(env, PropertyList(x.fields), Nil);
      FieldsPlain(env, x.fields, props);
      FlattenAgain(env, y.fields);
      NonMetaFacts(env, y.fields);
    } else {
      KeepsOut(env, x.fields, props);
      NoFields(env, x.fields);
    }
  }

  // ---- Where mixed rows come from ----

  /** Some property of the row is named like metadata. */
  predicate NamedMeta(env: Env, items: seq<Json>) {
    exists i :: 0 <= i < |items| && CimProperty(env, items[i]).Some? && CimProperty(env, items[i]).value.0 in CIM_META
  }

  lemma {:induction false} MetaSet(f: Fields, key: string, v: Json)
    ensures HasMeta(Set(f, key, v)) <==> HasMeta(f) || key in CIM_META
  {
    if f.Cons? && f.key != key {
      MetaSet(f.rest, key, v);
    }
  }

  lemma {:induction false} MetaProperties(env: Env, items: seq<Json>, out: Fields)
    ensures HasMeta(CimProperties(env, items, out)) <==> HasMeta(out) || NamedMeta(env, items)
    decreases |items|
  {
    if items != [] {
      var p, rest := CimProperty(env, items[0]), items[1..];
      var next := if p.Some? then Set(out, p.value.0, p.value.1) else out;
      MetaProperties(env, rest, next);
      if p.Some? {
        MetaSet(out, p.value.0, p.value.1);
      }
      assert NamedMeta(env, items) <==> (p.Some? && p.value.0 in CIM_META) || NamedMeta(env, rest) by {
        if NamedMeta(env, rest) {
          var i :| 0 <= i < |rest| && CimProperty(env, rest[i]).Some? && CimProperty(env, rest[i]).value.0 in CIM_META;
          assert items[i + 1] == rest[i];
        }
        if NamedMeta(env, items) && !(p.Some? && p.value.0 in CIM_META) {
          var i :| 0 <= i < |items| && CimProperty(env, items[i]).Some? && CimProperty(env, items[i]).value.0 in CIM_META;
          assert items[i] == rest[i - 1];
        }
      }
    }
  }

  lemma {:induction false} MetaFields(env: Env, f: Fields, out: Fields)
    ensures HasMeta(RowFields(env, f, out)) <==> HasMeta(out)
  {
    if f.Cons? {
      if f.key in CIM_META || f.value.Null? || Has(out, f.key) {
        MetaFields(env, f.rest, out);
      } else {
        MetaSet(out, f.key, WmiScalar(env, f.value));
        MetaFields(env, f.rest, Set(out, f.key, WmiScalar(env, f.value)));
      }
    }
  }

  /** Only a row with a property that is named like metadata has a mixed summary. */
  lemma OrdinaryRow(env: Env, x: Json)
    requires SlimRow(env, x).Some? && !NamedMeta(env, PropertyList(x.fields))
    ensures SlimRow(env, x).value.Obj? && Unmixed(SlimRow(env, x).value.fields)
  {
    var props := CimProperties(env, PropertyList(x.fields), Nil);
    MetaProperties(env, PropertyList(x.fields), Nil);
    MetaFields(env, x.fields, props);
    if FlattenRow(env, x).None? {
      KeepsOut(env, x.fields, props);
      NoFields(env, x.fields);
    }
  }
}
