// Lists of IP prefixes in UPDATE messages (bgpgg/src/bgp/utils.rs; section 4.3 of RFC 4271,
// section 3 of RFC 7911).
module NlriLists {
  import opened Bytes
  import opened Decimal
  import opened Wrappers

  const PATH_ID_LEN := 4

  datatype Afi = V4 | V6

  function MaxPrefix(f: Afi): u8 { if f.V4? then 32 else 128 }

  function AddressLen(f: Afi): nat { if f.V4? then 4 else 16 }

  datatype Nlri = Nlri(address: Bytes, prefixLength: u8, pathId: Option<u32>)

  // `div_ceil(8)`.
  function ByteLen(bits: u8): nat { (bits + 7) / 8 }

  // The host part is filled with zeros.
  function Padded(b: Bytes, n: nat): (r: Bytes)
    requires |b| <= n
    ensures |r| == n && r[..|b|] == b
  {
    b + seq(n - |b|, i => 0)
  }

  predicate Multicast(address: Bytes) { |address| == 4 && 224 <= address[0] <= 239 }

  // ----- entries on the wire, independent of the parser -----

  datatype Entry = Entry(pathId: Option<u32>, prefixLength: u8, prefix: Bytes)

  // A legal length and as many bytes as it says; a path identifier exactly with ADD-PATH.
  predicate WellFormed(e: Entry, f: Afi, addPath: bool) {
    e.prefixLength <= MaxPrefix(f) && |e.prefix| == ByteLen(e.prefixLength) && e.pathId.Some? == addPath
  }

  function EntryBytes(e: Entry): Bytes {
    (if e.pathId.Some? then Be(e.pathId.value, PATH_ID_LEN) else []) + [e.prefixLength] + e.prefix
  }

  function EntriesBytes(es: seq<Entry>): Bytes {
    if es == [] then [] else EntryBytes(es[0]) + EntriesBytes(es[1..])
  }

  predicate AllWellFormed(es: seq<Entry>, f: Afi, addPath: bool) {
    forall e | e in es :: WellFormed(e, f, addPath)
  }

  function Network(e: Entry, f: Afi): Nlri
    requires |e.prefix| <= AddressLen(f)
  {
    Nlri(Padded(e.prefix, AddressLen(f)), e.prefixLength, e.pathId)
  }

  lemma PrefixFits(e: Entry, f: Afi, addPath: bool)
    requires WellFormed(e, f, addPath)
    ensures |e.prefix| <= AddressLen(f)
  {
  }

  // What a list of entries means: multicast IPv4 networks are skipped, nothing else is.
  function Networks(es: seq<Entry>, f: Afi, addPath: bool): seq<Nlri>
    requires AllWellFormed(es, f, addPath)
  {
    if es == [] then []
    else
      PrefixFits(es[0], f, addPath);
      var n := Network(es[0], f);
      (if Multicast(n.address) then [] else [n]) + Networks(es[1..], f, addPath)
  }

  // ----- the parser -----

  datatype Step = Fail | Panic | Read(entry: Entry, size: nat)

  // One turn of the loop on the bytes that are left. With ADD-PATH nothing checks that a
  // length byte follows the path identifier: reading it there is out of bounds.
  function Next(b: Bytes, f: Afi, addPath: bool): (s: Step)
    requires b != []
    ensures s.Read? ==> 0 < s.size <= |b|
  {
    var skip := if addPath then PATH_ID_LEN else 0;
    if |b| < skip then Fail
    else if |b| == skip then Panic
    else
      var n := ByteLen(b[skip]);
      if b[skip] > MaxPrefix(f) || n > |b| - skip - 1 then Fail
      else
        Read(Entry(if addPath then Some(U32(b[..4])) else None, b[skip], b[skip + 1..skip + 1 + n]), skip + 1 + n)
  }

  datatype Outcome<T> = Rejected | OutOfBounds | Accepted(value: T)

  function Entries(b: Bytes, f: Afi, addPath: bool): Outcome<seq<Entry>> {
    if b == [] then Accepted([])
    else match Next(b, f, addPath)
      case Fail => Rejected
      case Panic => OutOfBounds
      case Read(e, n) =>
        match Entries(b[n..], f, addPath)
        case Accepted(es) => Accepted([e] + es)
        case r => r
  }

  lemma ReadWellFormed(b: Bytes, f: Afi, addPath: bool)
    requires b != [] && Next(b, f, addPath).Read?
    ensures var s := Next(b, f, addPath); WellFormed(s.entry, f, addPath) && EntryBytes(s.entry) == b[..s.size]
  {
    if addPath {
      BeNum(b[..4]);
      assert b[..4] + [b[4]] + b[5..5 + ByteLen(b[4])] == b[..5 + ByteLen(b[4])];
    } else {
      assert [] + [b[0]] + b[1..1 + ByteLen(b[0])] == b[..1 + ByteLen(b[0])];
    }
  }

  lemma WrittenReads(e: Entry, rest: Bytes, f: Afi, addPath: bool)
    requires WellFormed(e, f, addPath)
    ensures EntryBytes(e) != [] && Next(EntryBytes(e) + rest, f, addPath) == Read(e, |EntryBytes(e)|)
  {
    var b := EntryBytes(e) + rest;
    if addPath {
      assert b[..4] == Be(e.pathId.value, 4) && b[4] == e.prefixLength && b[5..5 + |e.prefix|] == e.prefix;
      U32Back(e.pathId.value);
    } else {
      assert b[0] == e.prefixLength && b[1..1 + |e.prefix|] == e.prefix;
    }
  }

  // Accepted bytes are the writing of the entries read, all of them, with nothing left.
  lemma {:induction false} EntriesWritten(b: Bytes, f: Afi, addPath: bool, es: seq<Entry>)
    requires Entries(b, f, addPath) == Accepted(es)
    ensures AllWellFormed(es, f, addPath) && EntriesBytes(es) == b
  {
    hide Next, EntryBytes, WellFormed;
    if b != [] {
      var s := Next(b, f, addPath);
      ReadWellFormed(b, f, addPath);
      EntriesWritten(b[s.size..], f, addPath, es[1..]);
      assert b[..s.size] + b[s.size..] == b;
    }
  }

  // Written entries are read back, with whatever follows them.
  lemma {:induction false} EntriesRead(es: seq<Entry>, rest: Bytes, f: Afi, addPath: bool)
    requires AllWellFormed(es, f, addPath)
    ensures Entries(EntriesBytes(es) + rest, f, addPath) == Prepend(es, Entries(rest, f, addPath))
  {
    hide Entries, EntryBytes, WellFormed;
    var r := Entries(rest, f, addPath);
    if es == [] {
      assert EntriesBytes(es) + rest == rest;
      assert r.Accepted? ==> es + r.value == r.value;
    } else {
      var tail := EntriesBytes(es[1..]) + rest;
      assert EntriesBytes(es) + rest == EntryBytes(es[0]) + tail;
      EntryAhead(es[0], tail, f, addPath);
      EntriesRead(es[1..], rest, f, addPath);
      assert r.Accepted? ==> [es[0]] + (es[1..] + r.value) == es + r.value;
    }
  }

  lemma EntryAhead(e: Entry, rest: Bytes, f: Afi, addPath: bool)
    requires WellFormed(e, f, addPath)
    ensures Entries(EntryBytes(e) + rest, f, addPath) == Prepend([e], Entries(rest, f, addPath))
  {
    hide Next, EntryBytes, WellFormed;
    WrittenReads(e, rest, f, addPath);
    assert (EntryBytes(e) + rest)[|EntryBytes(e)|..] == rest;
  }

  // More entries in front of an outcome.
  function Prepend(es: seq<Entry>, r: Outcome<seq<Entry>>): Outcome<seq<Entry>> {
    match r
    case Accepted(fs) => Accepted(es + fs)
    case _ => r
  }

  // The parser accepts exactly the concatenations of well-formed entries.
  lemma AcceptsExactly(b: Bytes, f: Afi, addPath: bool)
    ensures Entries(b, f, addPath).Accepted? <==> exists es :: AllWellFormed(es, f, addPath) && EntriesBytes(es) == b
  {
    if Entries(b, f, addPath).Accepted? {
      EntriesWritten(b, f, addPath, Entries(b, f, addPath).value);
    }
    forall es | AllWellFormed(es, f, addPath) && EntriesBytes(es) == b ensures Entries(b, f, addPath).Accepted? {
      EntriesRead(es, [], f, addPath);
      assert EntriesBytes(es) + [] == b;
    }
  }

  // Without ADD-PATH no bytes make it read out of bounds.
  lemma {:induction false} NeverOutOfBounds(b: Bytes, f: Afi)
    ensures !Entries(b, f, false).OutOfBounds?
  {
    if b != [] && Next(b, f, false).Read? {
      NeverOutOfBounds(b[Next(b, f, false).size..], f);
    }
  }

  // With ADD-PATH it does exactly when well-formed entries are followed by a path
  // identifier and nothing else.
  lemma {:induction false} OutOfBoundsOnly(b: Bytes, f: Afi)
    requires Entries(b, f, true).OutOfBounds?
    ensures exists es, id: Bytes :: AllWellFormed(es, f, true) && |id| == PATH_ID_LEN && b == EntriesBytes(es) + id
  {
    hide EntryBytes, WellFormed;
    var s := Next(b, f, true);
    if s.Panic? {
      assert AllWellFormed([], f, true) && b == EntriesBytes([]) + b;
    } else {
      ReadWellFormed(b, f, true);
      OutOfBoundsOnly(b[s.size..], f);
      var es, id: Bytes :| AllWellFormed(es, f, true) && |id| == PATH_ID_LEN && b[s.size..] == EntriesBytes(es) + id;
      var all := [s.entry] + es;
      assert all[1..] == es;
      assert b == b[..s.size] + b[s.size..];
      assert AllWellFormed(all, f, true) && b == EntriesBytes(all) + id;
    }
  }

  lemma OutOfBoundsExact(b: Bytes, f: Afi)
    ensures Entries(b, f, true).OutOfBounds? <==>
            exists es, id: Bytes :: AllWellFormed(es, f, true) && |id| == PATH_ID_LEN && b == EntriesBytes(es) + id
  {
    if Entries(b, f, true).OutOfBounds? {
      OutOfBoundsOnly(b, f);
    }
    forall es, id: Bytes | AllWellFormed(es, f, true) && |id| == PATH_ID_LEN && b == EntriesBytes(es) + id
      ensures Entries(b, f, true).OutOfBounds?
    {
      EntriesRead(es, id, f, true);
    }
  }

  // A path identifier and nothing after it.
  lemma PathIdOnlyExample()
    ensures Entries([0, 0, 0, 1], V4, true) == OutOfBounds && Entries([0, 0, 0, 1], V6, true) == OutOfBounds
  {
  }

  // ----- the list of networks -----

  function ParseList(b: Bytes, f: Afi, addPath: bool): Outcome<seq<Nlri>> {
    match Entries(b, f, addPath)
    case Accepted(es) =>
      EntriesWritten(b, f, addPath, es);
      Accepted(Networks(es, f, addPath))
    case Rejected => Rejected
    case OutOfBounds => OutOfBounds
  }

  lemma {:induction false} NetworksConcat(a: seq<Entry>, b: seq<Entry>, f: Afi, addPath: bool)
    requires AllWellFormed(a, f, addPath) && AllWellFormed(b, f, addPath)
    ensures AllWellFormed(a + b, f, addPath)
    ensures Networks(a + b, f, addPath) == Networks(a, f, addPath) + Networks(b, f, addPath)
  {
    hide WellFormed, Multicast, Network, ByteLen, Padded;
    if a == [] {
      assert a + b == b;
    } else {
      assert (a + b)[1..] == a[1..] + b;
      NetworksConcat(a[1..], b, f, addPath);
    }
  }

  // Parsing distributes over concatenation of accepted bytes.
  lemma ListConcat(a: Bytes, b: Bytes, f: Afi, addPath: bool, ns: seq<Nlri>)
    requires ParseList(a, f, addPath) == Accepted(ns)
    ensures ParseList(a + b, f, addPath) ==
            (match ParseList(b, f, addPath) case Accepted(ms) => Accepted(ns + ms) case r => r)
  {
    hide Networks, Entries, WellFormed;
    var es := Entries(a, f, addPath).value;
    EntriesWritten(a, f, addPath, es);
    EntriesRead(es, b, f, addPath);
    if Entries(b, f, addPath).Accepted? {
      EntriesWritten(b, f, addPath, Entries(b, f, addPath).value);
      NetworksConcat(es, Entries(b, f, addPath).value, f, addPath);
    }
  }

  // Only multicast IPv4 entries are dropped: every other entry is there, and nothing else.
  lemma {:induction false} NetworksKept(es: seq<Entry>, f: Afi, addPath: bool, n: Nlri)
    requires AllWellFormed(es, f, addPath)
    ensures n in Networks(es, f, addPath) <==>
            !Multicast(n.address) && exists e :: e in es && |e.prefix| <= AddressLen(f) && n == Network(e, f)
  {
    hide WellFormed, Multicast, Padded;
    if es != [] {
      NetworksKept(es[1..], f, addPath, n);
      PrefixFits(es[0], f, addPath);
      assert es[0] in es;
      assert forall e :: e in es <==> e == es[0] || e in es[1..];
    }
  }

  lemma {:induction false} NothingDropped(es: seq<Entry>, addPath: bool)
    requires AllWellFormed(es, V6, addPath)
    ensures |Networks(es, V6, addPath)| == |es|
  {
    hide WellFormed;
    if es != [] {
      NothingDropped(es[1..], addPath);
    }
  }

  // The loop of `parse_nlri_list` and `parse_nlri_v6_list`. The source demands of its
  // input what keeps it in bounds.
  method ParseLoop(bytes: Bytes, f: Afi, addPath: bool) returns (r: Outcome<seq<Nlri>>)
    requires !Entries(bytes, f, addPath).OutOfBounds?
    ensures r == ParseList(bytes, f, addPath)
  {
    hide Networks, WellFormed, Entries;
    var list: seq<Nlri> := [];
    var cursor := 0;
    ghost var done: seq<Entry> := [];
    assert bytes[0..] == bytes;
    Unread(bytes, f, addPath);
    while cursor < |bytes|
      invariant 0 <= cursor <= |bytes|
      invariant AllWellFormed(done, f, addPath) && list == Networks(done, f, addPath)
      invariant Entries(bytes, f, addPath) == Prepend(done, Entries(bytes[cursor..], f, addPath))
    {
      var rest := bytes[cursor..];
      OneStep(rest, f, addPath, done);
      var pathId: Option<u32> := None;
      if addPath {
        if |rest| < PATH_ID_LEN {
          return Rejected;
        }
        pathId := Some(U32(rest[..4]));
        cursor := cursor + PATH_ID_LEN;
      }
      assert cursor < |bytes|;
      var prefixLength := bytes[cursor];
      cursor := cursor + 1;
      var byteLen := ByteLen(prefixLength);
      if prefixLength > MaxPrefix(f) || byteLen > |bytes| - cursor {
        return Rejected;
      }
      var prefix := bytes[cursor..cursor + byteLen];
      var e := Entry(pathId, prefixLength, prefix);
      assert Next(rest, f, addPath).Read? && prefix == Next(rest, f, addPath).entry.prefix;
      PrefixFits(e, f, addPath);
      Snoc(done, e, f, addPath);
      var net := Nlri(Padded(prefix, AddressLen(f)), prefixLength, pathId);
      cursor := cursor + byteLen;
      assert rest[Next(rest, f, addPath).size..] == bytes[cursor..];
      done := done + [e];
      if Multicast(net.address) {
        continue;
      }
      list := list + [net];
    }
    assert bytes[cursor..] == [] && done + [] == done;
    Unread([], f, addPath);
    r := Accepted(list);
  }

  lemma Unread(b: Bytes, f: Afi, addPath: bool)
    ensures Prepend([], Entries(b, f, addPath)) == Entries(b, f, addPath) && Entries([], f, addPath) == Accepted([])
    ensures Networks([], f, addPath) == []
  {
    if Entries(b, f, addPath).Accepted? {
      assert [] + Entries(b, f, addPath).value == Entries(b, f, addPath).value;
    }
  }

  lemma OneStep(b: Bytes, f: Afi, addPath: bool, done: seq<Entry>)
    requires b != []
    ensures var s := Next(b, f, addPath);
      && (s.Fail? ==> Prepend(done, Entries(b, f, addPath)) == Rejected)
      && (s.Panic? ==> Prepend(done, Entries(b, f, addPath)) == OutOfBounds)
      && (s.Read? ==>
            WellFormed(s.entry, f, addPath) &&
            Prepend(done, Entries(b, f, addPath)) == Prepend(done + [s.entry], Entries(b[s.size..], f, addPath)))
  {
    hide Next, WellFormed, EntryBytes;
    var s := Next(b, f, addPath);
    if s.Read? {
      ReadWellFormed(b, f, addPath);
      var r := Entries(b[s.size..], f, addPath);
      assert Entries(b, f, addPath) == Prepend([s.entry], r);
      if r.Accepted? {
        assert done + ([s.entry] + r.value) == done + [s.entry] + r.value;
      }
    }
  }

  lemma Snoc(done: seq<Entry>, e: Entry, f: Afi, addPath: bool)
    requires AllWellFormed(done, f, addPath) && WellFormed(e, f, addPath) && |e.prefix| <= AddressLen(f)
    ensures AllWellFormed(done + [e], f, addPath)
    ensures var n := Network(e, f);
      Networks(done + [e], f, addPath) == Networks(done, f, addPath) + (if Multicast(n.address) then [] else [n])
  {
    hide WellFormed, Multicast, Network;
    NetworksConcat(done, [e], f, addPath);
    assert [e][1..] == [];
  }
}
