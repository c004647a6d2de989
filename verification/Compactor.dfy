/** The result compactor: an ordered JSON object goes in, a summary with sampled lists comes out. */
module Compactor {
  import opened Sequences

  /** No list outgrows `sys.maxsize`. */
  type List<T> = s: seq<T> | |s| < 0x8000_0000_0000_0000 witness []

  datatype Json = Null | Bool(b: bool) | Num(n: real) | Str(s: string) | Arr(items: List<Json>) | Obj(fields: Fields)

  /** A dictionary, in insertion order. */
  datatype Fields = Nil | Cons(key: string, value: Json, rest: Fields)

  /** `str(value)` */
  datatype Env = Env(text: Json -> string)

  /** It leaves strings alone. */
  ghost predicate Sane(env: Env) {
    forall s :: env.text(Str(s)) == s
  }

  // ---- Dictionaries ----

  function Get(f: Fields, key: string): Option<Json> {
    match f
    case Nil => None
    case Cons(k, v, rest) => if k == key then Some(v) else Get(rest, key)
  }

  /** `d[key] = value`: in place, or at the end. */
  function Set(f: Fields, key: string, value: Json): Fields {
    match f
    case Nil => Cons(key, value, Nil)
    case Cons(k, v, rest) => if k == key then Cons(k, value, rest) else Cons(k, v, Set(rest, key, value))
  }

  function Append(f: Fields, g: Fields): Fields {
    match f
    case Nil => g
    case Cons(k, v, rest) => Cons(k, v, Append(rest, g))
  }

  predicate Has(f: Fields, key: string) {
    Get(f, key).Some?
  }

  /** No key twice: what a dictionary is. */
  predicate Dict(f: Fields) {
    f.Cons? ==> !Has(f.rest, f.key) && Dict(f.rest)
  }

  /** And so at every depth. */
  predicate Proper(f: Fields)
    decreases f, 1
  {
    Dict(f) && ProperValues(f)
  }

  predicate ProperValues(f: Fields)
    decreases f, 0
  {
    f.Cons? ==> (f.value.Obj? ==> Proper(f.value.fields)) && ProperValues(f.rest)
  }

  function First(f: Fields, n: nat): Fields {
    if n == 0 || f.Nil? then Nil else Cons(f.key, f.value, First(f.rest, n - 1))
  }

  /** Python's truth of `d.get(key)`. */
  predicate Truthy(v: Option<Json>) {
    match v
    case None => false
    case Some(Null) => false
    case Some(Bool(b)) => b
    case Some(Num(n)) => n != 0.0
    case Some(Str(s)) => s != ""
    case Some(Arr(items)) => items != []
    case Some(Obj(f)) => f.Cons?
  }

  function Cut(s: string): string {
    if |s| <= 180 then s else s[..180]
  }

  // ---- One item ----

  /** `_slim_event_data` */
  function SlimData(env: Env, f: Fields): Fields {
    Texts(env, First(f, 12))
  }

  function Texts(env: Env, f: Fields): Fields {
    match f
    case Nil => Nil
    case Cons(k, v, rest) => Cons(k, Str(Cut(env.text(v))), Texts(env, rest))
  }

  const ENTRY_KEYS: seq<string> := [
    "ts", "level", "provider", "event_id", "channel", "computer", "record_id", "source", "message", "pid", "host",
    "type", "uid", "exe", "comm", "syscall", "success", "msg"]

  function ShortMessage(key: string, v: Json): Json {
    if key == "message" && v.Str? then Str(Cut(v.s)) else v
  }

  function Selected(keys: seq<string>, f: Fields): Fields {
    if keys == [] then Nil
    else
      var v := Get(f, keys[0]);
      if v.None? || v.value.Null? then Selected(keys[1..], f)
      else Cons(keys[0], ShortMessage(keys[0], v.value), Selected(keys[1..], f))
  }

  function EntryData(env: Env, f: Fields): Fields {
    var data := Get(f, "data");
    if data.Some? && data.value.Obj? && data.value.fields.Cons?
    then Cons("data", Obj(SlimData(env, data.value.fields)), Nil) else Nil
  }

  /** `slim_event_entry`; an empty summary is dropped by its caller. */
  function SlimEntry(env: Env, x: Json): Option<Json> {
    if !x.Obj? then None
    else
      var rec := Append(Selected(ENTRY_KEYS, x.fields), EntryData(env, x.fields));
      if rec.Nil? then None else Some(Obj(rec))
  }

  /** `a or b` */
  function Or(a: Option<Json>, b: Json): Json {
    if Truthy(a) then a.value else b
  }

  /** `_slim_package` */
  function SlimPackage(x: Json): Option<Json> {
    if !x.Obj? then None
    else
      var name := if Truthy(Get(x.fields, "name")) then Get(x.fields, "name") else Get(x.fields, "product");
      if !Truthy(name) then None
      else
        var hash := Get(x.fields, "sha256");
        Some(Obj(Cons("name", name.value, Cons("version", Or(Get(x.fields, "version"), Str("")),
          if Truthy(hash) then Cons("sha256", hash.value, Nil) else Nil))))
  }

  function Present(key: string, v: Option<Json>): Fields {
    if v.None? || v.value.Null? then Nil else Cons(key, v.value, Nil)
  }

  function SlimPoint(x: Json): Option<Json> {
    if !x.Obj? || Get(x.fields, "name").None? || Get(x.fields, "name").value.Null? then None
    else
      var value := Get(x.fields, "value");
      Some(Obj(Cons("name", Get(x.fields, "name").value, Cons("value", if value.None? then Null else value.value,
        Append(Present("unit", Get(x.fields, "unit")), Present("timeUnixNano", Get(x.fields, "timeUnixNano")))))))
  }

  /** The values of `_slim_record`. */
  function SlimValue(env: Env, v: Json): Json {
    match v
    case Null => v
    case Bool(_) => v
    case Num(_) => v
    case Str(s) => Str(Cut(s))
    case Arr(items) => Str("[" + Decimal(|items|) + "]")
    case Obj(f) => Obj(SlimData(env, f))
  }

  function Decimal(n: nat): string {
    var digit := ["0123456789"[n % 10]];
    if n < 10 then digit else Decimal(n / 10) + digit
  }

  function SlimValues(env: Env, f: Fields): Fields {
    match f
    case Nil => Nil
    case Cons(k, v, rest) => Cons(k, SlimValue(env, v), SlimValues(env, rest))
  }

  /** `_slim_record` */
  function SlimRecord(env: Env, x: Json): Json {
    if x.Obj? then Obj(SlimValues(env, First(x.fields, 12))) else Str(Cut(env.text(x)))
  }

  const CIM_META: set<string> := {"CimClass", "CimInstanceProperties", "CimSystemProperties", "PSComputerName"}

  function Cut500(s: string): string {
    if |s| <= 500 then s else s[..500]
  }

  /** `_wmi_scalar` */
  function WmiScalar(env: Env, v: Json): (r: Json)
    ensures !r.Obj? && (r.Null? <==> v.Null?)
  {
    match v
    case Arr(items) =>
      var n := if |items| <= 20 then |items| else 20;
      Arr(seq(n, i requires 0 <= i < n => WmiScalar(env, items[i])))
    case Obj(_) => Str(Cut500(env.text(v)))
    case _ => v
  }

  /** An entry of `CimInstanceProperties` with a name and a value. */
  function CimProperty(env: Env, item: Json): Option<(string, Json)> {
    if !item.Obj? then None
    else
      var name, value := Get(item.fields, "Name"), Get(item.fields, "Value");
      if !Truthy(name) || value.None? || value.value.Null? then None
      else Some((env.text(name.value), WmiScalar(env, value.value)))
  }

  function CimProperties(env: Env, items: seq<Json>, out: Fields): Fields {
    if items == [] then out
    else
      var p := CimProperty(env, items[0]);
      CimProperties(env, items[1..], if p.Some? then Set(out, p.value.0, p.value.1) else out)
  }

  function RowFields(env: Env, f: Fields, out: Fields): Fields {
    match f
    case Nil => out
    case Cons(k, v, rest) =>
      RowFields(env, rest, if k in CIM_META || v.Null? || Has(out, k) then out else Set(out, k, WmiScalar(env, v)))
  }

  function PropertyList(f: Fields): seq<Json> {
    var props := Get(f, "CimInstanceProperties");
    if props.Some? && props.value.Arr? then props.value.items else []
  }

  /** `flatten_wmi_row` */
  function FlattenRow(env: Env, x: Json): Option<Json> {
    if !x.Obj? then None
    else
      var out := RowFields(env, x.fields, CimProperties(env, PropertyList(x.fields), Nil));
      if out.Nil? then None else Some(Obj(out))
  }

  function SlimRow(env: Env, x: Json): Option<Json> {
    var flat := FlattenRow(env, x);
    if flat.Some? then flat else if x.Obj? && x.fields.Cons? then Some(x) else None
  }

  // ---- One list ----

  datatype Recipe = Packages | Entries | Rows | Points | Records

  const BULKY: set<string> := {
    "services", "processes", "connections", "entries", "items", "detections", "queries", "files", "findings", "hops",
    "checks", "disks", "providers", "of_interest", "tasks", "rows", "disk_io", "changes", "units", "timers", "programs",
    "denials", "interfaces", "sockets", "stats", "net", "rules", "profiles", "enabled", "events", "volumes", "answers",
    "applied"}

  function RecipeOf(key: string): Option<Recipe> {
    if key == "packages" then Some(Packages)
    else if key == "entries" then Some(Entries)
    else if key == "rows" then Some(Rows)
    else if key == "points" then Some(Points)
    else if key in BULKY then Some(Records)
    else None
  }

  function Slim(env: Env, recipe: Recipe, x: Json): Option<Json> {
    match recipe
    case Packages => SlimPackage(x)
    case Entries => SlimEntry(env, x)
    case Rows => SlimRow(env, x)
    case Points => SlimPoint(x)
    case Records => Some(SlimRecord(env, x))
  }

  function SlimAll(env: Env, recipe: Recipe, items: seq<Json>): (r: seq<Json>)
    ensures |r| <= |items|
  {
    if items == [] then []
    else
      var x := Slim(env, recipe, items[0]);
      (if x.Some? then [x.value] else []) + SlimAll(env, recipe, items[1..])
  }

  /** What the sample is taken from. */
  function Source(env: Env, recipe: Recipe, items: seq<Json>): seq<Json> {
    var slim := SlimAll(env, recipe, items);
    if recipe == Entries && slim == [] then items else slim
  }

  function LimitOf(recipe: Recipe, limit: nat): nat {
    if recipe == Packages || recipe == Points then 200 else limit
  }

  /** `_sample_list` */
  function Sample(items: seq<Json>, limit: nat): (seq<Json>, nat) {
    if |items| <= limit then (items, 0) else (items[..limit], |items| - limit)
  }

  // ---- One object ----

  /** What becomes of one field: its new value, how many items were left out, and whether the object is marked. */
  datatype Piece = Piece(value: Json, omitted: nat, mark: bool)

  function Compact(env: Env, limit: nat, f: Fields): Fields
    decreases f, 1
  {
    var (out, truncated) := Pass(env, limit, f, Nil, Truthy(Get(f, "truncated")));
    if truncated then Set(out, "truncated", Bool(true)) else out
  }

  /** The loop of `_compact_result`. */
  function Pass(env: Env, limit: nat, todo: Fields, out: Fields, truncated: bool): (Fields, bool)
    decreases todo, 0
  {
    match todo
    case Nil => (out, truncated)
    case Cons(key, value, rest) =>
      var p := Shrink(env, limit, key, value);
      var next := Set(out, key, p.value);
      Pass(env, limit, rest, if p.omitted > 0 then Set(next, key + "_omitted", Num(p.omitted as real)) else next,
        truncated || p.mark)
  }

  function Shrink(env: Env, limit: nat, key: string, value: Json): Piece
    decreases value
  {
    if value.Arr? && RecipeOf(key).Some? then
      var recipe := RecipeOf(key).value;
      var (kept, omitted) := Sample(Source(env, recipe, value.items), LimitOf(recipe, limit));
      Piece(Arr(kept), omitted, omitted > 0)
    else if value.Obj? && key == "channels" then
      var channels := Channels(env, limit, value.fields);
      Piece(Obj(channels), 0, AnyTruncated(channels))
    else if value.Obj? && key == "event_data" then
      Piece(Obj(SlimData(env, value.fields)), 0, false)
    else if value.Obj? then
      var nested := Compact(env, limit, value.fields);
      Piece(Obj(nested), 0, Truthy(Get(nested, "truncated")))
    else Piece(value, 0, false)
  }

  function Channels(env: Env, limit: nat, f: Fields): Fields
    decreases f, 0
  {
    match f
    case Nil => Nil
    case Cons(name, ch, rest) =>
      Cons(name, if ch.Obj? then Obj(Compact(env, limit, ch.fields)) else ch, Channels(env, limit, rest))
  }

  predicate AnyTruncated(f: Fields) {
    f.Cons? && ((f.value.Obj? && Truthy(Get(f.value.fields, "truncated"))) || AnyTruncated(f.rest))
  }

  /** `_compact_result` */
  method CompactResult(env: Env, limit: nat, result: Fields) returns (out: Fields)
    ensures out == Compact(env, limit, result)
  {
    out := Nil;
    var truncated := Truthy(Get(result, "truncated"));
    var todo := result;
    while todo.Cons?
      invariant Pass(env, limit, todo, out, truncated) == Pass(env, limit, result, Nil, Truthy(Get(result, "truncated")))
      decreases todo
    {
      var p := Shrink(env, limit, todo.key, todo.value);
      out := Set(out, todo.key, p.value);
      if p.omitted > 0 {
        out := Set(out, todo.key + "_omitted", Num(p.omitted as real));
      }
      truncated := truncated || p.mark;
      todo := todo.rest;
    }
    if truncated {
      out := Set(out, "truncated", Bool(true));
    }
  }
}
