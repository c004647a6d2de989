/** What a compacted result holds, field by field and item by item, by what can be looked up in it. */
module CompactorMeaning {
  import opened Sequences
  import opened Compactor
  import opened CompactorDicts
  import opened CompactorLaws
  import opened CompactorCounts

  /** Python calls these values false. */
  lemma TruthyMeans(v: Option<Json>)
    ensures !Truthy(v) <==> v == None || v.value in {Null, Bool(false), Num(0.0), Str(""), Arr([]), Obj(Nil)}
  {
  }

  /** `t` is `s`, or its first `n` characters. */
  predicate Short(n: nat, s: string, t: string) {
    t <= s && |t| == if |s| > n then n else |s|
  }

  lemma CutShort(s: string)
    ensures Short(180, s, Cut(s)) && Short(500, s, Cut500(s))
  {
  }

  /** Neither absent nor null. */
  predicate Given(v: Option<Json>) {
    v.Some? && v.value != Null
  }

  /** How many fields stand in front of the key. */
  function Place(f: Fields, key: string): nat {
    match f
    case Nil => 0
    case Cons(k, _, rest) => if k == key then 0 else 1 + Place(rest, key)
  }

  lemma {:induction false} FirstAt(f: Fields, n: nat, key: string)
    ensures Get(First(f, n), key) == if Place(f, key) < n then Get(f, key) else None
  {
    if n > 0 && f.Cons? && f.key != key {
      FirstAt(f.rest, n - 1, key);
    }
  }

  // ---- Event data ----

  /** The first twelve fields, as texts of at most 180 characters. */
  ghost predicate DataBecomes(env: Env, f: Fields, d: Fields) {
    forall key ::
      if Has(f, key) && Place(f, key) < 12
      then Has(d, key) && Get(d, key).value.Str? && Short(180, env.text(Get(f, key).value), Get(d, key).value.s)
      else !Has(d, key)
  }

  lemma {:induction false} TextsAt(env: Env, f: Fields, key: string)
    ensures Get(Texts(env, f), key) == if Has(f, key) then Some(Str(Cut(env.text(Get(f, key).value)))) else None
  {
    if f.Cons? && f.key != key {
      TextsAt(env, f.rest, key);
    }
  }

  lemma SlimDataMeans(env: Env, f: Fields)
    ensures DataBecomes(env, f, SlimData(env, f))
  {
    forall key
      ensures if Has(f, key) && Place(f, key) < 12
        then Has(SlimData(env, f), key) && Get(SlimData(env, f), key).value.Str?
             && Short(180, env.text(Get(f, key).value), Get(SlimData(env, f), key).value.s)
        else !Has(SlimData(env, f), key)
    {
      FirstAt(f, 12, key);
      TextsAt(env, First(f, 12), key);
      if Has(f, key) {
        CutShort(env.text(Get(f, key).value));
      }
    }
  }

  // ---- Packages ----

  /** Name or product, the version, and a hash if there is one; nothing without a name. */
  ghost predicate PackageBecomes(x: Json, y: Option<Json>) {
    if !x.Obj? || (!Truthy(Get(x.fields, "name")) && !Truthy(Get(x.fields, "product"))) then y.None?
    else
      && y.Some? && y.value.Obj?
      && (forall key :: Get(y.value.fields, key) ==
           if key == "name" then Get(x.fields, if Truthy(Get(x.fields, "name")) then "name" else "product")
           else if key == "version" then (if Truthy(Get(x.fields, key)) then Get(x.fields, key) else Some(Str("")))
           else if key == "sha256" && Truthy(Get(x.fields, key)) then Get(x.fields, key)
           else None)
  }

  lemma PackageMeans(x: Json)
    ensures PackageBecomes(x, SlimPackage(x))
  {
    if SlimPackage(x).Some? {
      var rest := SlimPackage(x).value.fields.rest;
      var hash := Get(x.fields, "sha256");
      assert rest.rest == if Truthy(hash) then Cons("sha256", hash.value, Nil) else Nil;
      forall key ensures Get(rest, key) ==
        if key == "version" then Some(rest.value) else if key == "sha256" && Truthy(hash) then hash else None
      {
        assert Get(rest.rest, key) == if key == "sha256" && Truthy(hash) then hash else None;
      }
    }
  }

  // ---- Points ----

  /** Name and value, and unit and time where they are given; nothing without a name. */
  ghost predicate PointBecomes(x: Json, y: Option<Json>) {
    if !x.Obj? || !Given(Get(x.fields, "name")) then y.None?
    else
      && y.Some? && y.value.Obj?
      && (forall key :: Get(y.value.fields, key) ==
           if key == "name" then Get(x.fields, key)
           else if key == "value" then (if Has(x.fields, key) then Get(x.fields, key) else Some(Null))
           else if (key == "unit" || key == "timeUnixNano") && Given(Get(x.fields, key)) then Get(x.fields, key)
           else None)
  }

  lemma {:induction false} AppendAt(f: Fields, g: Fields, key: string)
    ensures Get(Append(f, g), key) == if Has(f, key) then Get(f, key) else Get(g, key)
  {
    if f.Cons? && f.key != key {
      AppendAt(f.rest, g, key);
    }
  }

  lemma PointMeans(x: Json)
    ensures PointBecomes(x, SlimPoint(x))
  {
    if x.Obj? && Given(Get(x.fields, "name")) {
      var y := SlimPoint(x).value.fields;
      forall key ensures Get(y, key) ==
        if key == "name" then Get(x.fields, key)
        else if key == "value" then (if Has(x.fields, key) then Get(x.fields, key) else Some(Null))
        else if (key == "unit" || key == "timeUnixNano") && Given(Get(x.fields, key)) then Get(x.fields, key)
        else None
      {
        AppendAt(Present("unit", Get(x.fields, "unit")), Present("timeUnixNano", Get(x.fields, "timeUnixNano")), key);
      }
    }
  }

  // ---- Event entries ----

  /** The metadata that is given, a text message cut short, and the event data if there is any; nothing if that is nothing. */
  ghost predicate EntryBecomes(env: Env, x: Json, y: Option<Json>) {
    if !x.Obj? then y.None?
    else
      var rec := if y.Some? && y.value.Obj? then y.value.fields else Nil;
      && (y.Some? ==> y.value.Obj? && rec != Nil)
      && (forall key :: key != "data" ==> MetadataBecomes(x.fields, rec, key))
      && EventDataBecomes(env, x.fields, rec)
  }

  /** The fields of an entry that are metadata: where and when it was written, and for Linux by whom. */
  predicate IsMetadata(key: string) {
    || key in {"ts", "level", "provider", "event_id", "channel", "computer", "record_id", "source", "message", "host"}
    || key in {"pid", "uid", "exe", "comm", "type", "syscall", "success", "msg"}
  }

  lemma MetadataKeys(key: string)
    ensures key in ENTRY_KEYS <==> IsMetadata(key)
  {
  }

  ghost predicate MetadataBecomes(f: Fields, rec: Fields, key: string) {
    var v, w := Get(f, key), Get(rec, key);
    if !IsMetadata(key) || !Given(v) then w == None
    else if key == "message" && v.value.Str? then w.Some? && w.value.Str? && Short(180, v.value.s, w.value.s)
    else w == v
  }

  ghost predicate EventDataBecomes(env: Env, f: Fields, rec: Fields) {
    var v, w := Get(f, "data"), Get(rec, "data");
    if v.Some? && v.value.Obj? && v.value.fields != Nil
    then w.Some? && w.value.Obj? && DataBecomes(env, v.value.fields, w.value.fields)
    else w == None
  }

  lemma {:induction false} SelectedAt(keys: seq<string>, f: Fields, key: string)
    ensures Get(Selected(keys, f), key) ==
      if key in keys && Given(Get(f, key)) then Some(ShortMessage(key, Get(f, key).value)) else None
  {
    if keys != [] {
      SelectedAt(keys[1..], f, key);
    }
  }

  /** Each field of an entry's summary. */
  lemma EntryAt(env: Env, x: Json, key: string)
    requires x.Obj?
    ensures Get(Append(Selected(ENTRY_KEYS, x.fields), EntryData(env, x.fields)), key) ==
      if key in ENTRY_KEYS && Given(Get(x.fields, key)) then Some(ShortMessage(key, Get(x.fields, key).value))
      else Get(EntryData(env, x.fields), key)
  {
    SelectedAt(ENTRY_KEYS, x.fields, key);
    AppendAt(Selected(ENTRY_KEYS, x.fields), EntryData(env, x.fields), key);
  }

  lemma EntryMetadata(env: Env, x: Json, rec: Fields, key: string)
    requires x.Obj? && rec == Append(Selected(ENTRY_KEYS, x.fields), EntryData(env, x.fields)) && key != "data"
    ensures MetadataBecomes(x.fields, rec, key)
  {
    MetadataKeys(key);
    EntryAt(env, x, key);
    if Has(x.fields, key) && Get(x.fields, key).value.Str? {
      CutShort(Get(x.fields, key).value.s);
    }
  }

  lemma DataIsNoMetadata()
    ensures "data" !in ENTRY_KEYS
  {
  }

  lemma EntryEventData(env: Env, x: Json, rec: Fields)
    requires x.Obj? && rec == Append(Selected(ENTRY_KEYS, x.fields), EntryData(env, x.fields))
    ensures EventDataBecomes(env, x.fields, rec)
  {
    EntryAt(env, x, "data");
    DataIsNoMetadata();
    if Has(x.fields, "data") && Get(x.fields, "data").value.Obj? {
      SlimDataMeans(env, Get(x.fields, "data").value.fields);
    }
  }

  lemma EntryMeans(env: Env, x: Json)
    ensures EntryBecomes(env, x, SlimEntry(env, x))
  {
    if x.Obj? {
      var rec := Append(Selected(ENTRY_KEYS, x.fields), EntryData(env, x.fields));
      forall key | key != "data" ensures MetadataBecomes(x.fields, rec, key) {
        EntryMetadata(env, x, rec, key);
      }
      EntryEventData(env, x, rec);
    }
  }

  // ---- Records ----

  /** The number that a decimal numeral stands for. */
  function Read(s: string): nat
    requires forall i :: 0 <= i < |s| ==> '0' <= s[i] <= '9'
  {
    if s == [] then 0 else 10 * Read(s[..|s| - 1]) + (s[|s| - 1] - '0') as nat
  }

  predicate Numeral(s: string) {
    s != [] && (forall i :: 0 <= i < |s| ==> '0' <= s[i] <= '9') && (|s| > 1 ==> s[0] != '0')
  }

  lemma {:induction false} DecimalReads(n: nat)
    ensures Numeral(Decimal(n)) && Read(Decimal(n)) == n
    ensures n > 0 ==> Decimal(n)[0] != '0'
  {
    var d := ["0123456789"[n % 10]];
    assert "0123456789"[n % 10] - '0' == (n % 10) as char;
    if n < 10 {
      assert d[..0] == [];
    } else {
      DecimalReads(n / 10);
      assert Decimal(n)[..|Decimal(n)| - 1] == Decimal(n / 10);
    }
  }

  /** A value of a record: scalars stay, a text is cut short, a list gives way to its length, a dictionary to its data. */
  ghost predicate ValueBecomes(env: Env, v: Json, w: Json) {
    match v
    case Str(s) => w.Str? && Short(180, s, w.s)
    case Arr(items) =>
      w.Str? && |w.s| > 2 && w.s[0] == '[' && w.s[|w.s| - 1] == ']' && Numeral(w.s[1..|w.s| - 1])
      && Read(w.s[1..|w.s| - 1]) == |items|
    case Obj(f) => w.Obj? && DataBecomes(env, f, w.fields)
    case _ => w == v
  }

  lemma ValueMeans(env: Env, v: Json)
    ensures ValueBecomes(env, v, SlimValue(env, v))
  {
    match v
    case Str(s) => CutShort(s);
    case Arr(items) =>
      DecimalReads(|items|);
      var w := "[" + Decimal(|items|) + "]";
      assert w[1..|w| - 1] == Decimal(|items|);
    case Obj(f) => SlimDataMeans(env, f);
    case _ =>
  }

  /** The first twelve fields of a dictionary; anything else as a short text. */
  ghost predicate RecordBecomes(env: Env, x: Json, y: Json) {
    if !x.Obj? then y.Str? && Short(180, env.text(x), y.s)
    else
      && y.Obj?
      && (forall key ::
           if Has(x.fields, key) && Place(x.fields, key) < 12
           then Has(y.fields, key) && ValueBecomes(env, Get(x.fields, key).value, Get(y.fields, key).value)
           else !Has(y.fields, key))
  }

  lemma {:induction false} ValuesAt(env: Env, f: Fields, key: string)
    ensures Get(SlimValues(env, f), key) == if Has(f, key) then Some(SlimValue(env, Get(f, key).value)) else None
  {
    if f.Cons? && f.key != key {
      ValuesAt(env, f.rest, key);
    }
  }

  lemma RecordMeans(env: Env, x: Json)
    ensures RecordBecomes(env, x, SlimRecord(env, x))
  {
    if x.Obj? {
      var y := SlimRecord(env, x).fields;
      forall key
        ensures if Has(x.fields, key) && Place(x.fields, key) < 12
          then Has(y, key) && ValueBecomes(env, Get(x.fields, key).value, Get(y, key).value) else !Has(y, key)
      {
        FirstAt(x.fields, 12, key);
        ValuesAt(env, First(x.fields, 12), key);
        if Has(x.fields, key) {
          ValueMeans(env, Get(x.fields, key).value);
        }
      }
    } else {
      CutShort(env.text(x));
    }
  }

  // ---- Rows ----

  /** Scalars stay, a list is cut to twenty elements, a dictionary gives way to its text, cut short. */
  ghost predicate WmiBecomes(env: Env, v: Json, w: Json) {
    match v
    case Arr(items) =>
      && w.Arr? && |w.items| == (if |items| > 20 then 20 else |items|)
      && forall i :: 0 <= i < |w.items| ==> WmiBecomes(env, items[i], w.items[i])
    case Obj(_) => w.Str? && Short(500, env.text(v), w.s)
    case _ => w == v
  }

  lemma {:induction false} WmiMeans(env: Env, v: Json)
    ensures WmiBecomes(env, v, WmiScalar(env, v))
  {
    match v
    case Arr(items) =>
      forall i | 0 <= i < |items| && i < 20 ensures WmiBecomes(env, items[i], WmiScalar(env, items[i])) {
        WmiMeans(env, items[i]);
      }
    case Obj(_) => CutShort(env.text(v));
    case _ =>
  }

  /** The last property of this name with a value. */
  ghost function Property(env: Env, items: seq<Json>, key: string): Option<Json> {
    if items == [] then None
    else if Property(env, items[1..], key).Some? then Property(env, items[1..], key)
    else if items[0].Obj? && Names(env, items[0].fields, key) then Get(items[0].fields, "Value")
    else None
  }

  predicate Names(env: Env, f: Fields, key: string) {
    Truthy(Get(f, "Name")) && env.text(Get(f, "Name").value) == key && Given(Get(f, "Value"))
  }

  /** What a row has under this key: a property, or else a field of its own that is not metadata and not null. */
  ghost function RowValue(env: Env, f: Fields, key: string): Option<Json> {
    var props := Get(f, "CimInstanceProperties");
    var p := if props.Some? && props.value.Arr? then Property(env, props.value.items, key) else None;
    if p.Some? then p
    else if key != "CimClass" && key != "CimInstanceProperties" && key != "CimSystemProperties" && key != "PSComputerName"
      && Given(Get(f, key)) then Get(f, key)
    else None
  }

  /** Every value the row has, made plain; a row without any stays as it is, and an empty one is left out. */
  ghost predicate RowBecomes(env: Env, x: Json, y: Option<Json>) {
    if !x.Obj? then y == None
    else if exists key :: RowValue(env, x.fields, key).Some? then
      && y.Some? && y.value.Obj?
      && (forall key ::
           if RowValue(env, x.fields, key).Some?
           then Has(y.value.fields, key) && WmiBecomes(env, RowValue(env, x.fields, key).value, Get(y.value.fields, key).value)
           else !Has(y.value.fields, key))
    else y == if x.fields == Nil then None else Some(x)
  }

  lemma {:induction false} PropertiesAt(env: Env, items: seq<Json>, out: Fields, key: string)
    ensures Get(CimProperties(env, items, out), key) ==
      var p := Property(env, items, key); if p.Some? then Some(WmiScalar(env, p.value)) else Get(out, key)
    decreases |items|
  {
    if items != [] {
      var p := CimProperty(env, items[0]);
      PropertiesAt(env, items[1..], if p.Some? then Set(out, p.value.0, p.value.1) else out, key);
      if p.Some? {
        GetSet(out, p.value.0, p.value.1, key);
      }
    }
  }

  lemma {:induction false} RowFieldsAt(env: Env, f: Fields, out: Fields, key: string)
    requires Dict(f)
    ensures Get(RowFields(env, f, out), key) ==
      if Has(out, key) then Get(out, key)
      else if key !in CIM_META && Given(Get(f, key)) then Some(WmiScalar(env, Get(f, key).value)) else None
  {
    if f.Cons? {
      if f.key in CIM_META || f.value.Null? || Has(out, f.key) {
        RowFieldsAt(env, f.rest, out, key);
      } else {
        GetSet(out, f.key, WmiScalar(env, f.value), key);
        RowFieldsAt(env, f.rest, Set(out, f.key, WmiScalar(env, f.value)), key);
      }
    }
  }

  lemma FlatAt(env: Env, f: Fields, key: string)
    requires Dict(f)
    ensures Get(RowFields(env, f, CimProperties(env, PropertyList(f), Nil)), key) ==
      var v := RowValue(env, f, key); if v.Some? then Some(WmiScalar(env, v.value)) else None
  {
    RowFieldsAt(env, f, CimProperties(env, PropertyList(f), Nil), key);
    PropertiesAt(env, PropertyList(f), Nil, key);
  }

  lemma RowMeans(env: Env, x: Json)
    requires x.Obj? ==> Dict(x.fields)
    ensures RowBecomes(env, x, SlimRow(env, x))
  {
    if x.Obj? {
      var flat := RowFields(env, x.fields, CimProperties(env, PropertyList(x.fields), Nil));
      forall key ensures Get(flat, key) ==
        (var v := RowValue(env, x.fields, key); if v.Some? then Some(WmiScalar(env, v.value)) else None)
      {
        FlatAt(env, x.fields, key);
      }
      forall key | RowValue(env, x.fields, key).Some?
        ensures WmiBecomes(env, RowValue(env, x.fields, key).value, WmiScalar(env, RowValue(env, x.fields, key).value))
      {
        WmiMeans(env, RowValue(env, x.fields, key).value);
      }
      if flat.Cons? {
        assert Has(flat, flat.key);
      }
    }
  }

  // ---- Lists ----

  /** What becomes of one item of a list under this key. */
  ghost predicate Becomes(env: Env, key: string, x: Json, y: Option<Json>) {
    if key == "packages" then PackageBecomes(x, y)
    else if key == "entries" then EntryBecomes(env, x, y)
    else if key == "rows" then RowBecomes(env, x, y)
    else if key == "points" then PointBecomes(x, y)
    else y.Some? && RecordBecomes(env, x, y.value)
  }

  /** `all` has, in order, what becomes of the items, without those that come to nothing. */
  ghost predicate Digest(env: Env, key: string, items: seq<Json>, all: seq<Json>) {
    if items == [] then all == []
    else
      || (Becomes(env, key, items[0], None) && Digest(env, key, items[1..], all))
      || (all != [] && Becomes(env, key, items[0], Some(all[0])) && Digest(env, key, items[1..], all[1..]))
  }

  lemma ItemMeans(env: Env, key: string, x: Json)
    requires RecipeOf(key).Some? && (x.Obj? ==> Dict(x.fields))
    ensures Becomes(env, key, x, Slim(env, RecipeOf(key).value, x))
  {
    match RecipeOf(key).value
    case Packages => PackageMeans(x);
    case Entries => EntryMeans(env, x);
    case Rows => RowMeans(env, x);
    case Points => PointMeans(x);
    case Records => RecordMeans(env, x);
  }

  lemma {:induction false} AllMean(env: Env, key: string, items: seq<Json>)
    requires RecipeOf(key).Some? && forall i :: 0 <= i < |items| && items[i].Obj? ==> Dict(items[i].fields)
    ensures Digest(env, key, items, SlimAll(env, RecipeOf(key).value, items))
  {
    if items != [] {
      ItemMeans(env, key, items[0]);
      AllMean(env, key, items[1..]);
      var x, rest := Slim(env, RecipeOf(key).value, items[0]), SlimAll(env, RecipeOf(key).value, items[1..]);
      if x.Some? {
        assert ([x.value] + rest)[1..] == rest;
      } else {
        assert [] + rest == rest;
      }
    }
  }

  /** Lists under these keys are sampled. */
  predicate Sampled(key: string) {
    || key in {"packages", "points", "entries", "rows", "services", "processes", "connections", "items", "detections"}
    || key in {"queries", "files", "findings", "hops", "checks", "disks", "providers", "of_interest", "tasks", "events"}
    || key in {"disk_io", "changes", "units", "timers", "programs", "denials", "interfaces", "sockets", "stats", "net"}
    || key in {"rules", "profiles", "enabled", "volumes", "answers", "applied"}
  }

  lemma SampledKeys(key: string)
    ensures Sampled(key) <==> RecipeOf(key).Some?
  {
  }

  /** The key is not where the count of some list would go. */
  ghost predicate NoNote(f: Fields, key: string) {
    forall k :: Has(f, k) ==> key != k + "_omitted"
  }

  lemma {:induction false} NoNoteNoCount(env: Env, l: nat, f: Fields, key: string)
    requires NoNote(f, key)
    ensures !IsCount(env, l, f, key)
  {
    if f.Cons? {
      assert Has(f, f.key);
      assert forall k :: Has(f.rest, k) ==> Has(f, k);
      NoNoteNoCount(env, l, f.rest, key);
    }
  }

  /** A sampled list gives way to the summaries of its items, as many as there may be: two hundred packages or points, and
      of any other kind as many as the limit says. If no entry has a summary, the entries are sampled as they are. What
      is left out is counted. */
  lemma ListMeans(env: Env, l: nat, f: Fields, key: string, items: seq<Json>) returns (all: seq<Json>)
    requires Dict(f) && NoNote(f, key) && Sampled(key) && Has(f, key) && Get(f, key).value.Arr?
    requires items == Get(f, key).value.items
    requires forall i :: 0 <= i < |items| && items[i].Obj? ==> Dict(items[i].fields)
    ensures Digest(env, key, items, all)
    ensures var most := if key == "packages" || key == "points" then 200 else l;
      var from := if key == "entries" && all == [] then items else all;
      var r := Compact(env, l, f);
      && Has(r, key) && Get(r, key).value.Arr?
      && Get(r, key).value.items == (if |from| <= most then from else from[..most])
      && (!Has(f, key + "_omitted") && |from| > most ==> Get(r, key + "_omitted") == Some(Num((|from| - most) as real)))
  {
    SampledKeys(key);
    var recipe := RecipeOf(key).value;
    all := SlimAll(env, recipe, items);
    AllMean(env, key, items);
    assert key != "truncated";
    NoNoteNoCount(env, l, f, key);
    FieldsKept(env, l, f, key);
    if !Has(f, key + "_omitted") && Shrink(env, l, key, Get(f, key).value).omitted > 0 {
      CountNoted(env, l, f, key);
    }
  }

  // ---- Fields ----

  /** A field that is neither a dictionary nor a sampled list is kept as it is, and no field is invented. */
  lemma FieldStays(env: Env, l: nat, f: Fields, key: string)
    requires Dict(f) && key != "truncated" && NoNote(f, key)
    ensures var v := Get(f, key);
      v == None || (!v.value.Obj? && !(v.value.Arr? && Sampled(key))) ==> Get(Compact(env, l, f), key) == v
  {
    SampledKeys(key);
    NoNoteNoCount(env, l, f, key);
    FieldsKept(env, l, f, key);
  }

  /** A dictionary is compacted in turn; the channels are, one by one; event data becomes texts. */
  lemma DictionaryMeans(env: Env, l: nat, f: Fields, key: string, g: Fields)
    requires Dict(f) && key != "truncated" && NoNote(f, key) && Get(f, key) == Some(Obj(g))
    ensures var r := Compact(env, l, f);
      && Has(r, key) && Get(r, key).value.Obj?
      && (var h := Get(r, key).value.fields;
          if key == "event_data" then DataBecomes(env, g, h)
          else if key == "channels" then
            forall name :: Get(h, name) ==
              if Has(g, name) && Get(g, name).value.Obj? then Some(Obj(Compact(env, l, Get(g, name).value.fields)))
              else Get(g, name)
          else h == Compact(env, l, g))
  {
    NoNoteNoCount(env, l, f, key);
    FieldsKept(env, l, f, key);
    SlimDataMeans(env, g);
    if key == "channels" {
      forall name ensures Get(Channels(env, l, g), name) ==
        (if Has(g, name) && Get(g, name).value.Obj? then Some(Obj(Compact(env, l, Get(g, name).value.fields)))
         else Get(g, name))
      {
        ChannelAt(env, l, g, name);
      }
    }
  }

  lemma {:induction false} ChannelAt(env: Env, l: nat, g: Fields, name: string)
    ensures Get(Channels(env, l, g), name) ==
      if Has(g, name) && Get(g, name).value.Obj? then Some(Obj(Compact(env, l, Get(g, name).value.fields)))
      else Get(g, name)
  {
    if g.Cons? && g.key != name {
      ChannelAt(env, l, g.rest, name);
    }
  }
}
