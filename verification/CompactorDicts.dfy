/** Dictionaries under assignment. */
module CompactorDicts {
  import opened Sequences
  import opened Compactor

  lemma {:induction false} GetSet(f: Fields, key: string, v: Json, k: string)
    ensures Get(Set(f, key, v), k) == if k == key then Some(v) else Get(f, k)
  {
    if f.Cons? && f.key != key {
      GetSet(f.rest, key, v, k);
    }
  }

  lemma {:induction false} SetSame(f: Fields, key: string, v: Json)
    requires Get(f, key) == Some(v)
    ensures Set(f, key, v) == f
  {
    if f.key != key {
      SetSame(f.rest, key, v);
    }
  }

  lemma {:induction false} SetDict(f: Fields, key: string, v: Json)
    requires Dict(f)
    ensures Dict(Set(f, key, v))
  {
    if f.Cons? && f.key != key {
      GetSet(f.rest, key, v, f.key);
      SetDict(f.rest, key, v);
    }
  }

  lemma {:induction false} AppendOne(out: Fields, k: string, v: Json, rest: Fields)
    requires !Has(out, k)
    ensures Append(Set(out, k, v), rest) == Append(out, Cons(k, v, rest))
  {
    if out.Cons? {
      AppendOne(out.rest, k, v, rest);
    }
  }

  lemma {:induction false} AppendNil(f: Fields)
    ensures Append(f, Nil) == f
  {
    if f.Cons? {
      AppendNil(f.rest);
    }
  }
}
