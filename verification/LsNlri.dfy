// Lists of BGP-LS NLRI (bgpgg/src/bgp/bgpls_nlri.rs; section 5.2 of RFC 9552): framing,
// route distinguishers, isolation of malformed bodies, and structured construction.
module LsNlri {
  import opened Bytes
  import opened Decimal
  import opened LsDescriptors
  import opened Tlv
  import opened Wrappers

  const RD_LEN := 8
  const BODY_HEADER_LEN := 9

  type Rd = b: Bytes | |b| == RD_LEN witness [0, 0, 0, 0, 0, 0, 0, 0]

  datatype NlriBody = NlriBody(protocolId: u8, identifier: u64, descriptors: Descriptors)
  datatype Nlri = Nlri(nlriType: u16, raw: Bytes, body: Option<NlriBody>, rd: Option<Rd>)

  function KindOfType(t: u16): Option<Kind> {
    match t
    case 1 => Some(NodeKind)
    case 2 => Some(LinkKind)
    case 3 => Some(PrefixV4Kind)
    case 4 => Some(PrefixV6Kind)
    case _ => None
  }

  function TypeOfKind(k: Kind): u16 {
    match k
    case NodeKind => 1
    case LinkKind => 2
    case PrefixV4Kind => 3
    case PrefixV6Kind => 4
  }

  // ----- bodies -----

  function ParseBody(kind: Kind, b: Bytes, order: Order): Result<NlriBody> {
    if |b| < BODY_HEADER_LEN then Err
    else
      var d :- ParseDescriptors(kind, b[BODY_HEADER_LEN..], order);
      Ok(NlriBody(b[0], U64(b[1..9]), d))
  }

  function EncodeBody(protocolId: u8, identifier: u64, d: Descriptors): Bytes {
    [protocolId] + Be(identifier, 8) + WriteTlvs(DescriptorTlvs(d))
  }

  lemma BodyBack(body: NlriBody, order: Order)
    requires DescriptorsFit(body.descriptors)
    ensures ParseBody(KindOf(body.descriptors), EncodeBody(body.protocolId, body.identifier, body.descriptors), order)
            == Ok(body)
        <==> Form(body.descriptors) && Regrouped(body.descriptors, order)
  {
    hide ParseDescriptors, WriteTlvs, DescriptorTlvs, DescriptorsFit, Form, Regrouped;
    var d := body.descriptors;
    var b := EncodeBody(body.protocolId, body.identifier, d);
    assert b[1..9] == Be(body.identifier, 8) && b[9..] == WriteTlvs(DescriptorTlvs(d));
    U64Back(body.identifier);
    DescriptorsBack(d, order);
  }

  // ----- lists -----

  // Malformed bodies and unknown types are kept as opaque bytes.
  function BodyOf(t: u16, raw: Bytes, order: Order): Option<NlriBody> {
    var kind :- KindOfType(t);
    match ParseBody(kind, raw, order)
    case Err => None
    case Ok(b) => Some(b)
  }

  // One framed entry; with a VPN SAFI its first eight bytes are the route distinguisher,
  // and an entry too short for it is skipped.
  function Entry(f: Tlv, vpn: bool, order: Order): seq<Nlri> {
    if !vpn then [Nlri(f.tlvType, f.value, BodyOf(f.tlvType, f.value, order), None)]
    else if |f.value| < RD_LEN then []
    else
      var raw := f.value[RD_LEN..];
      [Nlri(f.tlvType, raw, BodyOf(f.tlvType, raw, order), Some(f.value[..RD_LEN]))]
  }

  function Entries(fs: seq<Tlv>, vpn: bool, order: Order): seq<Nlri> {
    if fs == [] then [] else Entry(fs[0], vpn, order) + Entries(fs[1..], vpn, order)
  }

  // NLRI and TLVs share their framing: two bytes of type, two of length.
  function ParseList(b: Bytes, vpn: bool, order: Order): Result<seq<Nlri>> {
    var fs :- ParseTlvs(b);
    Ok(Entries(fs, vpn, order))
  }

  function Frame(n: Nlri): Tlv {
    Tlv(n.nlriType, (if n.rd.Some? then n.rd.value else []) + n.raw)
  }

  function Frames(ns: seq<Nlri>): seq<Tlv> {
    if ns == [] then [] else [Frame(ns[0])] + Frames(ns[1..])
  }

  function WriteList(ns: seq<Nlri>): Bytes {
    WriteTlvs(Frames(ns))
  }

  // The loop of `write_ls_nlri_list`: type, length, route distinguisher and raw bytes are
  // appended to the buffer one entry after the other.
  method WriteListLoop(ns: seq<Nlri>) returns (bytes: Bytes)
    ensures bytes == WriteList(ns)
  {
    hide Be;
    bytes := [];
    var i := 0;
    assert ns[0..] == ns && [] + WriteList(ns) == WriteList(ns);
    while i < |ns|
      invariant 0 <= i <= |ns|
      invariant bytes + WriteTlvs(Frames(ns[i..])) == WriteList(ns)
    {
      assert ns[i..][1..] == ns[i + 1..] && ns[i..][0] == ns[i];
      var f := Frame(ns[i]);
      assert Frames(ns[i..])[1..] == Frames(ns[i + 1..]);
      ghost var rest := WriteTlvs(Frames(ns[i + 1..]));
      assert bytes + (WriteTlv(f) + rest) == bytes + WriteTlv(f) + rest;
      bytes := bytes + Be(f.tlvType, 2) + Be(|f.value| % 0x1_0000, 2) + f.value;
      i := i + 1;
    }
    assert ns[i..] == [];
  }

  // The loop of `parse_ls_nlri_list`.
  method ParseListLoop(bytes: Bytes, vpn: bool, order: Order) returns (r: Result<seq<Nlri>>)
    ensures r == ParseList(bytes, vpn, order)
  {
    hide ParseTlvs, BodyOf;
    var entries: seq<Nlri> := [];
    var cursor := 0;
    ghost var frames: seq<Tlv> := [];
    assert bytes[0..] == bytes;
    AfterAfter([], [], ParseTlvs(bytes));
    while cursor < |bytes|
      invariant 0 <= cursor <= |bytes|
      invariant entries == Entries(frames, vpn, order)
      invariant ParseTlvs(bytes) == After(frames, ParseTlvs(bytes[cursor..]))
    {
      ParseFrame(bytes, cursor);
      if |bytes| - cursor < 4 {
        return Err;
      }
      var nlriType := U16(bytes[cursor..cursor + 2]);
      var totalLen := U16(bytes[cursor + 2..cursor + 4]);
      cursor := cursor + 4;
      if cursor + totalLen > |bytes| {
        return Err;
      }
      var fullBody := bytes[cursor..cursor + totalLen];
      ghost var f := Tlv(nlriType, fullBody);
      AfterAfter(frames, [f], ParseTlvs(bytes[cursor + totalLen..]));
      EntriesConcat(frames, [f], vpn, order);
      OneEntry(f, vpn, order);
      frames := frames + [f];
      cursor := cursor + totalLen;
      var rd: Option<Rd> := None;
      var raw := fullBody;
      if vpn {
        if |fullBody| < RD_LEN {
          assert entries + [] == entries;
          continue;
        }
        rd := Some(fullBody[..RD_LEN]);
        raw := fullBody[RD_LEN..];
      }
      entries := entries + [Nlri(nlriType, raw, BodyOf(nlriType, raw, order), rd)];
    }
    NoTlvs();
    assert bytes[cursor..] == [] && frames + [] == frames;
    r := Ok(entries);
  }

  lemma {:induction false} EntriesConcat(a: seq<Tlv>, b: seq<Tlv>, vpn: bool, order: Order)
    ensures Entries(a + b, vpn, order) == Entries(a, vpn, order) + Entries(b, vpn, order)
  {
    hide Entry;
    if a == [] {
      assert a + b == b;
    } else {
      assert (a + b)[1..] == a[1..] + b;
      EntriesConcat(a[1..], b, vpn, order);
    }
  }

  lemma OneEntry(f: Tlv, vpn: bool, order: Order)
    ensures Entries([f], vpn, order) == Entry(f, vpn, order)
  {
    hide Entry;
    assert [f][1..] == [];
  }

  // ----- framing is lossless -----

  // The frames that have room for a route distinguisher.
  function Long(fs: seq<Tlv>): seq<Tlv> {
    if fs == [] then [] else (if |fs[0].value| >= RD_LEN then [fs[0]] else []) + Long(fs[1..])
  }

  lemma {:induction false} FramesOfEntries(fs: seq<Tlv>, vpn: bool, order: Order)
    ensures Frames(Entries(fs, vpn, order)) == if vpn then Long(fs) else fs
  {
    hide BodyOf;
    if fs != [] {
      var first, rest := Entry(fs[0], vpn, order), Entries(fs[1..], vpn, order);
      FramesOfEntries(fs[1..], vpn, order);
      if first != [] {
        assert first == [first[0]];
        assert (first + rest)[1..] == rest && (first + rest)[0] == first[0];
        assert Frame(first[0]).value == fs[0].value;
      } else {
        assert first + rest == rest;
      }
    }
  }

  // Writing what was read gives the accepted bytes back; with a VPN SAFI, minus the entries
  // too short for a route distinguisher.
  lemma ListLossless(b: Bytes, vpn: bool, order: Order, fs: seq<Tlv>)
    requires ParseTlvs(b) == Ok(fs)
    ensures ParseList(b, vpn, order).Ok?
    ensures WriteList(ParseList(b, vpn, order).value) == if vpn then WriteTlvs(Long(fs)) else b
  {
    hide WriteTlvs, ParseTlvs, Entries, Frames;
    FramesOfEntries(fs, vpn, order);
    WriteParsed(b, fs);
  }

  // A list followed by more bytes is read as the two lists after each other: no entry,
  // however malformed, affects its neighbours.
  lemma ListConcat(a: Bytes, b: Bytes, vpn: bool, order: Order, ns: seq<Nlri>)
    requires ParseList(a, vpn, order) == Ok(ns)
    ensures ParseList(a + b, vpn, order) ==
            (match ParseList(b, vpn, order) case Err => Err case Ok(ms) => Ok(ns + ms))
  {
    hide ParseTlvs, Entries;
    var fs := ParseTlvs(a).value;
    ParseConcat(a, fs, b);
    if ParseTlvs(b).Ok? {
      EntriesConcat(fs, ParseTlvs(b).value, vpn, order);
    }
  }

  // ----- structured NLRI -----

  // The entry says what its bytes say.
  predicate Faithful(n: Nlri, vpn: bool, order: Order) {
    n.rd.Some? == vpn && n.body == BodyOf(n.nlriType, n.raw, order)
  }

  lemma EntryBack(n: Nlri, vpn: bool, order: Order)
    ensures Entry(Frame(n), vpn, order) == [n] <==> Faithful(n, vpn, order)
  {
    hide BodyOf;
    var v := Frame(n).value;
    if n.rd.Some? {
      assert v[..RD_LEN] == n.rd.value && v[RD_LEN..] == n.raw;
    } else {
      assert v == n.raw;
    }
  }

  lemma {:induction false} EntriesBack(ns: seq<Nlri>, vpn: bool, order: Order)
    requires forall n | n in ns :: Faithful(n, vpn, order)
    ensures Entries(Frames(ns), vpn, order) == ns
  {
    hide Entry, Faithful, Frame;
    if ns != [] {
      EntryBack(ns[0], vpn, order);
      EntriesBack(ns[1..], vpn, order);
      assert Frames(ns)[1..] == Frames(ns[1..]);
    }
  }

  lemma {:induction false} FramesMember(ns: seq<Nlri>, f: Tlv)
    requires f in Frames(ns)
    ensures exists n :: n in ns && Frame(n) == f
  {
    if Frame(ns[0]) == f {
      assert ns[0] in ns;
    } else {
      FramesMember(ns[1..], f);
      var n :| n in ns[1..] && Frame(n) == f;
      assert n in ns;
    }
  }

  // Any list of faithful entries is read back as it was written.
  lemma ListBack(ns: seq<Nlri>, vpn: bool, order: Order)
    requires forall n | n in ns :: Faithful(n, vpn, order) && Fits(Frame(n))
    ensures ParseList(WriteList(ns), vpn, order) == Ok(ns)
  {
    hide ParseTlvs, WriteTlvs, Faithful, Frame;
    forall f | f in Frames(ns) ensures Fits(f) {
      FramesMember(ns, f);
    }
    ParseWrittenAlone(Frames(ns));
    EntriesBack(ns, vpn, order);
  }

  function Build(protocolId: u8, identifier: u64, d: Descriptors, rd: Option<Rd>): Nlri {
    Nlri(TypeOfKind(KindOf(d)), EncodeBody(protocolId, identifier, d), Some(NlriBody(protocolId, identifier, d)), rd)
  }

  function SetIdentifier(n: Nlri, identifier: u64): Nlri {
    match n.body
    case None => n
    case Some(b) => n.(body := Some(b.(identifier := identifier)))
                     .(raw := EncodeBody(b.protocolId, identifier, b.descriptors))
  }

  // An NLRI whose bytes were made from its body.
  predicate Built(n: Nlri) {
    n.body.Some? && n.nlriType == TypeOfKind(KindOf(n.body.value.descriptors)) &&
    n.raw == EncodeBody(n.body.value.protocolId, n.body.value.identifier, n.body.value.descriptors)
  }

  lemma BuiltFaithful(n: Nlri, order: Order)
    requires Built(n) && DescriptorsFit(n.body.value.descriptors)
    ensures Faithful(n, n.rd.Some?, order) <==>
            Form(n.body.value.descriptors) && Regrouped(n.body.value.descriptors, order)
  {
    hide ParseBody, EncodeBody, DescriptorsFit, Form, Regrouped;
    var d := n.body.value.descriptors;
    assert KindOfType(TypeOfKind(KindOf(d))) == Some(KindOf(d));
    BodyBack(n.body.value, order);
  }

  // Build, write and parse gives the same NLRI exactly when its descriptors have the form
  // and their unknown TLVs the iteration order.
  lemma BuiltBack(protocolId: u8, identifier: u64, d: Descriptors, rd: Option<Rd>, order: Order)
    requires DescriptorsFit(d) && Fits(Frame(Build(protocolId, identifier, d, rd)))
    ensures var n := Build(protocolId, identifier, d, rd);
      ParseList(WriteList([n]), rd.Some?, order) == Ok([n]) <==> Form(d) && Regrouped(d, order)
  {
    hide ParseTlvs, WriteTlvs, BodyOf, EncodeBody, DescriptorsFit, Form, Regrouped;
    var n := Build(protocolId, identifier, d, rd);
    BuiltFaithful(n, order);
    assert Frames([n]) == [Frame(n)] by { assert [n][1..] == []; }
    ParseWrittenAlone([Frame(n)]);
    OneEntry(Frame(n), rd.Some?, order);
    EntryBack(n, rd.Some?, order);
  }

  // Giving an NLRI a new identifier keeps everything else and leaves its bytes in step with
  // its body; it is read back as it is exactly when its descriptors have the form and their
  // unknown TLVs the iteration order.
  lemma IdentifierBack(n: Nlri, identifier: u64, order: Order)
    requires n.body.Some? && n.nlriType == TypeOfKind(KindOf(n.body.value.descriptors))
    requires DescriptorsFit(n.body.value.descriptors) && Fits(Frame(SetIdentifier(n, identifier)))
    ensures var m, d := SetIdentifier(n, identifier), n.body.value.descriptors;
      && m.body == Some(n.body.value.(identifier := identifier)) && m.nlriType == n.nlriType && m.rd == n.rd
      && (ParseList(WriteList([m]), n.rd.Some?, order) == Ok([m]) <==> Form(d) && Regrouped(d, order))
  {
    hide ParseTlvs, WriteTlvs, BodyOf, EncodeBody, DescriptorsFit, Form, Regrouped, WriteList, ParseList;
    var b := n.body.value;
    BuiltBack(b.protocolId, identifier, b.descriptors, n.rd, order);
  }
}
