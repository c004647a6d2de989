/** The RTNETLINK dump parser (RFC 3549, section 2.3.2), for a little-endian host. */
module Netlink {
  import opened Sequences

  type Byte = x: int | 0 <= x < 256

  const NLMSG_DONE := 3
  const RTM_NEWLINK := 16
  const IFLA_IFNAME := 3

  /** `(n + 3) & ~3` */
  function Padded(n: nat): (r: nat)
    ensures n <= r < n + 4
  {
    n + 3 - (n + 3) % 4
  }

  function U16(s: seq<Byte>, at: nat): (r: nat)
    requires at + 2 <= |s|
    ensures r < 0x1_0000
  {
    s[at] as int + 0x100 * (s[at + 1] as int)
  }

  function U32(s: seq<Byte>, at: nat): (r: nat)
    requires at + 4 <= |s|
    ensures r < 0x1_0000_0000
  {
    U16(s, at) + 0x1_0000 * U16(s, at + 2)
  }

  /** `raw.split(b"\x00", 1)[0]` */
  function UpToNul(raw: seq<Byte>): (name: seq<Byte>)
    ensures |name| <= |raw| && name == raw[..|name|]
    ensures 0 !in name && (|name| < |raw| ==> raw[|name|] == 0)
  {
    if raw == [] || raw[0] == 0 then [] else [raw[0]] + UpToNul(raw[1..])
  }

  /** What is left after `n` bytes; Python slices stop at the end. */
  function After(s: seq<Byte>, n: nat): seq<Byte> {
    if n <= |s| then s[n..] else []
  }

  function Upto(s: seq<Byte>, n: nat): seq<Byte> {
    if n <= |s| then s[..n] else s
  }

  type Name = seq<Byte>

  /** The loop over attributes ends here. */
  predicate AttrsEnd(s: seq<Byte>, room: int)
    requires room < 4 || room <= |s|
  {
    room < 4 || U16(s, 0) < 4
  }

  /** The name in the attribute at the front of `s`, if it is one. */
  function AttrName(s: seq<Byte>): seq<Name>
    requires |s| >= 4
  {
    if U16(s, 2) == IFLA_IFNAME then [UpToNul(After(Upto(s, U16(s, 0)), 4))] else []
  }

  /** The names among the attributes in the first `room` bytes of `s`. */
  function AttrNames(s: seq<Byte>, room: int): seq<Name>
    requires room < 4 || room <= |s|
    decreases |s|
  {
    if AttrsEnd(s, room) then []
    else AttrName(s) + AttrNames(After(s, Padded(U16(s, 0))), room - Padded(U16(s, 0)))
  }

  /** The loop over messages ends here. */
  predicate MessagesEnd(s: seq<Byte>) {
    |s| < 16 || U32(s, 0) < 16 || U32(s, 0) > |s| || U16(s, 4) == NLMSG_DONE
  }

  function LinkNames(s: seq<Byte>): seq<Name>
    requires !MessagesEnd(s)
  {
    if U16(s, 4) == RTM_NEWLINK then AttrNames(After(s, 32), U32(s, 0) as int - 32) else []
  }

  /** The names in the messages at the front of `s`. */
  function MessageNames(s: seq<Byte>): seq<Name>
    decreases |s|
  {
    if MessagesEnd(s) then [] else LinkNames(s) + MessageNames(After(s, Padded(U32(s, 0))))
  }

  // ---- The parser ----

  lemma AfterAfter(blob: seq<Byte>, off: nat, n: nat)
    ensures After(blob, off + n) == After(After(blob, off), n)
  {
  }

  lemma Shift(blob: seq<Byte>, off: nat, at: nat)
    requires off + at + 2 <= |blob|
    ensures U16(blob, off + at) == U16(After(blob, off), at)
    ensures off + at + 4 <= |blob| ==> U32(blob, off + at) == U32(After(blob, off), at)
  {
  }

  /** The attribute at `at`, read in place. */
  function NameAt(blob: seq<Byte>, at: nat): seq<Name>
    requires at + 4 <= |blob|
  {
    if U16(blob, at + 2) == IFLA_IFNAME then [UpToNul(After(Upto(blob, at + U16(blob, at)), at + 4))] else []
  }

  lemma DataAt(blob: seq<Byte>, at: nat, alen: nat)
    requires at + 4 <= |blob|
    ensures After(Upto(After(blob, at), alen), 4) == After(Upto(blob, at + alen), at + 4)
  {
    var s := blob[at..];
    if at + alen > |blob| {
      assert s[4..] == blob[at + 4..];
    } else if alen >= 4 {
      assert s[..alen][4..] == blob[..at + alen][at + 4..];
    }
  }

  lemma AttrAt(blob: seq<Byte>, at: nat)
    requires at + 4 <= |blob|
    ensures var s := After(blob, at);
      && U16(s, 0) == U16(blob, at)
      && AttrName(s) == NameAt(blob, at)
      && After(s, Padded(U16(blob, at))) == After(blob, at + Padded(U16(blob, at)))
  {
    hide Padded, U16;
    var s, alen := After(blob, at), U16(blob, at);
    assert U16(s, 0) == alen && U16(s, 2) == U16(blob, at + 2) by {
      Shift(blob, at, 0);
      Shift(blob, at, 2);
    }
    assert AttrName(s) == NameAt(blob, at) by {
      DataAt(blob, at, alen);
    }
    AfterAfter(blob, at, Padded(alen));
  }

  /** The names still to be found between `at` and `end`. */
  ghost function ToCome(blob: seq<Byte>, at: nat, end: nat): seq<Name>
    requires end <= |blob|
    decreases end - at
  {
    if at + 4 > end || U16(blob, at) < 4 then []
    else NameAt(blob, at) + ToCome(blob, at + Padded(U16(blob, at)), end)
  }

  lemma {:induction false} AttrsInPlace(blob: seq<Byte>, at: nat, end: nat)
    requires end <= |blob|
    ensures ToCome(blob, at, end) == AttrNames(After(blob, at), end - at)
    decreases end - at
  {
    hide Padded, U16, NameAt, AttrName;
    if at + 4 <= end {
      AttrAt(blob, at);
      if U16(blob, at) >= 4 {
        AttrsInPlace(blob, at + Padded(U16(blob, at)), end);
      }
    }
  }

  lemma Taken(names: seq<Name>, found: seq<Name>, rest: seq<Name>, todo: seq<Name>, goal: seq<Name>)
    requires names + todo == goal && todo == found + rest
    ensures (names + found) + rest == goal
  {
    ConcatAssoc(names, found, rest);
  }

  /** The inner loop: the attributes between `from` and `end`. */
  method ParseAttributes(blob: seq<Byte>, from: nat, end: nat) returns (names: seq<Name>)
    requires end <= |blob|
    ensures names == AttrNames(After(blob, from), end - from)
  {
    hide Padded, U16, NameAt;
    names := [];
    var at, more := from, true;
    ghost var goal := ToCome(blob, from, end);
    ghost var todo := goal;
    while more && at + 4 <= end
      invariant todo == if more then ToCome(blob, at, end) else []
      invariant names + todo == goal
      decreases more, end - at
    {
      var alen := U16(blob, at);
      if alen < 4 {
        more, todo := false, [];
      } else {
        var found := NameAt(blob, at);
        at := at + Padded(alen);
        Taken(names, found, ToCome(blob, at, end), todo, goal);
        names, todo := names + found, ToCome(blob, at, end);
      }
    }
    AttrsInPlace(blob, from, end);
  }

  ghost function NamesAt(blob: seq<Byte>, off: nat): seq<Name>
    requires off + 16 <= |blob| && off + U32(blob, off) <= |blob|
  {
    if U16(blob, off + 4) == RTM_NEWLINK
    then AttrNames(After(blob, off + 32), off + U32(blob, off) - (off + 32))
    else []
  }

  /** The names still to be found from `off` on. */
  ghost function Remaining(blob: seq<Byte>, off: nat): seq<Name>
    decreases |blob| - off
  {
    if off + 16 > |blob| then []
    else
      var length := U32(blob, off);
      if length < 16 || off + length > |blob| || U16(blob, off + 4) == NLMSG_DONE then []
      else NamesAt(blob, off) + Remaining(blob, off + Padded(length))
  }

  lemma MessageAt(blob: seq<Byte>, off: nat)
    requires off + 16 <= |blob|
    ensures var s, length := After(blob, off), U32(blob, off);
      && U32(s, 0) == length
      && MessagesEnd(s) == (length < 16 || off + length > |blob| || U16(blob, off + 4) == NLMSG_DONE)
      && (!MessagesEnd(s) ==> LinkNames(s) == NamesAt(blob, off))
      && After(s, Padded(length)) == After(blob, off + Padded(length))
  {
    hide Padded, U16;
    Shift(blob, off, 0);
    Shift(blob, off, 4);
    AfterAfter(blob, off, 32);
    AfterAfter(blob, off, Padded(U32(blob, off)));
  }

  lemma {:induction false} MessagesInPlace(blob: seq<Byte>, off: nat)
    ensures Remaining(blob, off) == MessageNames(After(blob, off))
    decreases |blob| - off
  {
    hide Padded, U16, U32, NamesAt, LinkNames;
    if off + 16 <= |blob| {
      MessageAt(blob, off);
      if !MessagesEnd(After(blob, off)) {
        MessagesInPlace(blob, off + Padded(U32(blob, off)));
      }
    }
  }

  method ParseBody(blob: seq<Byte>, off: nat, kind: nat, length: nat) returns (found: seq<Name>)
    requires off + 16 <= |blob| && off + length <= |blob| && length == U32(blob, off) && kind == U16(blob, off + 4)
    ensures found == NamesAt(blob, off)
  {
    found := [];
    if kind == RTM_NEWLINK {
      found := ParseAttributes(blob, off + 32, off + length);
    }
  }

  /** `_parse_nl_ifnames`: ends on every input, and reads no byte past the end. */
  method ParseIfNames(blob: seq<Byte>) returns (names: seq<Name>)
    ensures names == MessageNames(blob)
  {
    hide Padded, U16, U32, NamesAt;
    names := [];
    var off := 0;
    ghost var goal := Remaining(blob, 0);
    ghost var todo := goal;
    assert goal == MessageNames(blob) by {
      MessagesInPlace(blob, 0);
      assert After(blob, 0) == blob;
    }
    while off + 16 <= |blob|
      invariant todo == Remaining(blob, off)
      invariant names + todo == goal
      decreases |blob| - off
    {
      var length, kind := U32(blob, off), U16(blob, off + 4);
      if length < 16 || off + length > |blob| {
        return;
      }
      if kind == NLMSG_DONE {
        return;
      }
      var found := ParseBody(blob, off, kind, length);
      off := off + Padded(length);
      Taken(names, found, Remaining(blob, off), todo, goal);
      names, todo := names + found, Remaining(blob, off);
    }
  }

  // ---- The encoding ----

  function Le16(n: nat): (r: seq<Byte>)
    requires n < 0x1_0000
    ensures |r| == 2 && U16(r, 0) == n
  {
    [n % 0x100, n / 0x100]
  }

  function Le32(n: nat): (r: seq<Byte>)
    requires n < 0x1_0000_0000
    ensures |r| == 4 && U32(r, 0) == n
  {
    Le16(n % 0x1_0000) + Le16(n / 0x1_0000)
  }

  function Zeros(n: nat): (r: seq<Byte>)
    ensures |r| == n
  {
    seq(n, i => 0)
  }

  datatype Attr = Attr(kind: nat, data: seq<Byte>) {
    ghost predicate Valid() {
      kind < 0x1_0000 && |data| + 4 < 0x1_0000
    }
  }

  /** `rest` is the part of the header after length and type; `info` the fixed part of a link message. On the wire a link
      message has type 16, the end of a dump type 3, and a name attribute type 3. */
  datatype Message =
    | Link(rest: seq<Byte>, info: seq<Byte>, attrs: seq<Attr>)
    | Other(kind: nat, rest: seq<Byte>, payload: seq<Byte>)
  {
    ghost predicate Valid() {
      && |rest| == 10
      && (Link? ==>
        && |info| == 16
        && (forall i :: 0 <= i < |attrs| ==> attrs[i].Valid())
        && 32 + AttrsSize(attrs) < 0x1_0000_0000)
      && (Other? ==>
        && kind < 0x1_0000 && kind != 3 && kind != 16
        && 16 + |payload| < 0x1_0000_0000)
    }
  }

  function AttrsSize(attrs: seq<Attr>): nat {
    if attrs == [] then 0 else Padded(4 + |attrs[0].data|) + AttrsSize(attrs[1..])
  }

  ghost function EncodeAttr(a: Attr): (r: seq<Byte>)
    requires a.Valid()
    ensures |r| == Padded(4 + |a.data|)
    ensures U16(r, 0) == 4 + |a.data| && U16(r, 2) == a.kind && r[4..4 + |a.data|] == a.data
  {
    var n := 4 + |a.data|;
    Le16(n) + Le16(a.kind) + a.data + Zeros(Padded(n) - n)
  }

  ghost function EncodeAttrs(attrs: seq<Attr>): (r: seq<Byte>)
    requires forall i :: 0 <= i < |attrs| ==> attrs[i].Valid()
    ensures |r| == AttrsSize(attrs)
  {
    if attrs == [] then [] else EncodeAttr(attrs[0]) + EncodeAttrs(attrs[1..])
  }

  function Length(m: Message): nat {
    if m.Link? then 32 + AttrsSize(m.attrs) else 16 + |m.payload|
  }

  ghost function Body(m: Message): (r: seq<Byte>)
    requires m.Valid()
    ensures |r| == Padded(Length(m)) - 16
  {
    SizeAligned(if m.Link? then m.attrs else []);
    if m.Link? then m.info + EncodeAttrs(m.attrs)
    else m.payload + Zeros(Padded(Length(m)) - Length(m))
  }

  lemma {:induction false} SizeAligned(attrs: seq<Attr>)
    ensures AttrsSize(attrs) % 4 == 0
    ensures Padded(32 + AttrsSize(attrs)) == 32 + AttrsSize(attrs)
  {
    if attrs != [] {
      SizeAligned(attrs[1..]);
    }
  }

  ghost function EncodeMessage(m: Message): (r: seq<Byte>)
    requires m.Valid()
    ensures |r| == Padded(Length(m)) && U32(r, 0) == Length(m)
    ensures U16(r, 4) == if m.Link? then 16 else m.kind
    ensures r[16..] == Body(m)
  {
    var head := Le32(Length(m)) + Le16(if m.Link? then 16 else m.kind) + m.rest;
    head + Body(m)
  }

  ghost function EncodeAll(ms: seq<Message>): seq<Byte>
    requires forall i :: 0 <= i < |ms| ==> ms[i].Valid()
  {
    if ms == [] then [] else EncodeMessage(ms[0]) + EncodeAll(ms[1..])
  }

  /** The names a dump carries. */
  function NamesIn(attrs: seq<Attr>): seq<Name> {
    if attrs == [] then []
    else (if attrs[0].kind == 3 then [UpToNul(attrs[0].data)] else []) + NamesIn(attrs[1..])
  }

  function Names(ms: seq<Message>): seq<Name> {
    if ms == [] then []
    else (if ms[0].Link? then NamesIn(ms[0].attrs) else []) + Names(ms[1..])
  }

  lemma {:induction false} AttrsRoundTrip(attrs: seq<Attr>, rest: seq<Byte>)
    requires forall i :: 0 <= i < |attrs| ==> attrs[i].Valid()
    ensures AttrNames(EncodeAttrs(attrs) + rest, AttrsSize(attrs)) == NamesIn(attrs)
  {
    if attrs != [] {
      var more := EncodeAttrs(attrs[1..]) + rest;
      assert EncodeAttrs(attrs) + rest == EncodeAttr(attrs[0]) + more;
      AttrsRoundTrip(attrs[1..], rest);
      AttrRoundTrip(attrs[0], more, AttrsSize(attrs));
    }
  }

  lemma AttrRoundTrip(a: Attr, rest: seq<Byte>, room: nat)
    requires a.Valid() && Padded(4 + |a.data|) <= room <= Padded(4 + |a.data|) + |rest|
    ensures AttrNames(EncodeAttr(a) + rest, room)
         == (if a.kind == 3 then [UpToNul(a.data)] else []) + AttrNames(rest, room - Padded(4 + |a.data|))
  {
    var one := EncodeAttr(a);
    var s := one + rest;
    var alen := 4 + |a.data|;
    assert U16(s, 0) == U16(one, 0) && U16(s, 2) == U16(one, 2);
    assert After(Upto(s, alen), 4) == one[4..alen];
    assert After(s, Padded(alen)) == rest;
  }

  lemma MessageRoundTrip(m: Message, rest: seq<Byte>)
    requires m.Valid()
    ensures MessageNames(EncodeMessage(m) + rest)
         == (if m.Link? then NamesIn(m.attrs) else []) + MessageNames(rest)
  {
    var one := EncodeMessage(m);
    var s := one + rest;
    var length := Length(m);
    assert U32(s, 0) == U32(one, 0) && U16(s, 4) == U16(one, 4);
    assert After(s, Padded(length)) == rest;
    if m.Link? {
      LinkAttrs(m, rest);
    }
  }

  lemma LinkAttrs(m: Message, rest: seq<Byte>)
    requires m.Valid() && m.Link?
    ensures AttrNames(After(EncodeMessage(m) + rest, 32), AttrsSize(m.attrs)) == NamesIn(m.attrs)
  {
    var one := EncodeMessage(m);
    SizeAligned(m.attrs);
    assert one[32..] == Body(m)[16..] == EncodeAttrs(m.attrs);
    assert After(one + rest, 32) == EncodeAttrs(m.attrs) + rest;
    AttrsRoundTrip(m.attrs, rest);
  }

  /** What `rest` may be for the dump to end there: nothing readable, or a DONE message and anything after it. */
  lemma {:induction false} ParseAfter(ms: seq<Message>, rest: seq<Byte>)
    requires forall i :: 0 <= i < |ms| ==> ms[i].Valid()
    ensures MessageNames(EncodeAll(ms) + rest) == Names(ms) + MessageNames(rest)
  {
    if ms == [] {
      assert EncodeAll(ms) + rest == rest;
    } else {
      assert EncodeAll(ms) + rest == EncodeMessage(ms[0]) + (EncodeAll(ms[1..]) + rest);
      MessageRoundTrip(ms[0], EncodeAll(ms[1..]) + rest);
      ParseAfter(ms[1..], rest);
      ConcatAssoc(if ms[0].Link? then NamesIn(ms[0].attrs) else [], Names(ms[1..]), MessageNames(rest));
    }
  }

  /** A well-formed dump, ended by DONE, gives back exactly its interface names, in order, whatever follows. */
  lemma DumpRoundTrip(ms: seq<Message>, done: seq<Byte>, rest: seq<Byte>)
    requires forall i :: 0 <= i < |ms| ==> ms[i].Valid()
    requires |done| >= 16 && U16(done, 4) == 3
    ensures MessageNames(EncodeAll(ms) + (done + rest)) == Names(ms)
  {
    ParseAfter(ms, done + rest);
    assert U16(done + rest, 4) == U16(done, 4);
    assert Names(ms) + [] == Names(ms);
  }

  /** A dump cut off inside a link message loses that message and nothing before it. */
  lemma CutDump(ms: seq<Message>, m: Message, n: nat)
    requires forall i :: 0 <= i < |ms| ==> ms[i].Valid()
    requires m.Valid() && m.Link? && n < Length(m)
    ensures n <= |EncodeMessage(m)|
    ensures MessageNames(EncodeAll(ms) + EncodeMessage(m)[..n]) == Names(ms)
  {
    var part := EncodeMessage(m)[..n];
    ParseAfter(ms, part);
    if n >= 16 {
      assert U32(part, 0) == U32(EncodeMessage(m), 0);
    }
    assert Names(ms) + [] == Names(ms);
  }
}
