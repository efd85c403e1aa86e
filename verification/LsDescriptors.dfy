// BGP-LS descriptors (bgpgg/src/bgp/bgpls_nlri.rs; sections 5.1 and 5.2 of RFC 9552):
// their wire form and the way back.
module LsDescriptors {
  import opened Bytes
  import opened Decimal
  import opened Tlv
  import opened Wrappers

  const LOCAL_NODE: u16 := 256
  const REMOTE_NODE: u16 := 257
  const LINK_IDS: u16 := 258
  const IPV4_INTERFACE: u16 := 259
  const IPV4_NEIGHBOR: u16 := 260
  const IPV6_INTERFACE: u16 := 261
  const IPV6_NEIGHBOR: u16 := 262
  const MULTI_TOPOLOGY: u16 := 263
  const OSPF_ROUTE_TYPE: u16 := 264
  const IP_REACHABILITY: u16 := 265
  const AUTONOMOUS_SYSTEM: u16 := 512
  const BGP_LS_ID: u16 := 513
  const OSPF_AREA: u16 := 514
  const IGP_ROUTER: u16 := 515

  // `LsTlvType::from_u16` knows the type.
  predicate Known(t: u16) { LOCAL_NODE <= t <= IP_REACHABILITY || NodeField(t) }

  predicate NodeField(t: u16) { AUTONOMOUS_SYSTEM <= t <= IGP_ROUTER }

  type Octets4 = b: Bytes | |b| == 4 witness [0, 0, 0, 0]
  type Octets16 = b: Bytes | |b| == 16 witness [0, 0, 0, 0, 0, 0, 0, 0, 0, 0, 0, 0, 0, 0, 0, 0]

  datatype NodeDescriptor = NodeDescriptor(
    asNumber: Option<u32>,
    bgpLsId: Option<u32>,
    ospfAreaId: Option<u32>,
    igpRouterId: Option<Bytes>,
    unknown: seq<Tlv>)

  datatype LinkDescriptor = LinkDescriptor(
    localId: Option<u32>,
    remoteId: Option<u32>,
    ipv4Interface: Option<Octets4>,
    ipv4Neighbor: Option<Octets4>,
    ipv6Interface: Option<Octets16>,
    ipv6Neighbor: Option<Octets16>,
    multiTopology: Option<seq<u16>>,
    unknown: seq<Tlv>)

  datatype PrefixDescriptor = PrefixDescriptor(
    multiTopology: Option<seq<u16>>,
    ospfRouteType: Option<u8>,
    ipReachability: Option<Bytes>,
    unknown: seq<Tlv>)

  datatype Descriptors =
    | Node(local: NodeDescriptor)
    | Link(local: NodeDescriptor, remote: NodeDescriptor, link: LinkDescriptor)
    | PrefixV4(local: NodeDescriptor, prefix: PrefixDescriptor)
    | PrefixV6(local: NodeDescriptor, prefix: PrefixDescriptor)

  datatype Kind = NodeKind | LinkKind | PrefixV4Kind | PrefixV6Kind

  function KindOf(d: Descriptors): Kind {
    match d
    case Node(_) => NodeKind
    case Link(_, _, _) => LinkKind
    case PrefixV4(_, _) => PrefixV4Kind
    case PrefixV6(_, _) => PrefixV6Kind
  }

  const EMPTY_NODE := NodeDescriptor(None, None, None, None, [])

  // ----- optional fields in a fixed order -----

  datatype Field = Field(t: u16, value: Option<Bytes>)

  function Flat(fs: seq<Field>): seq<Tlv> {
    if fs == [] then []
    else (if fs[0].value.Some? then [Tlv(fs[0].t, fs[0].value.value)] else []) + Flat(fs[1..])
  }

  predicate Ascending(fs: seq<Field>) {
    forall i, j | 0 <= i < j < |fs| :: fs[i].t < fs[j].t
  }

  function Word(v: Option<u32>): Option<Bytes> {
    if v.Some? then Some(Be(v.value, 4)) else None
  }

  function Topologies(v: Option<seq<u16>>): Option<Bytes> {
    if v.Some? then Some(JoinU16s(v.value)) else None
  }

  function JoinU16s(ids: seq<u16>): (b: Bytes)
    ensures |b| == 2 * |ids|
  {
    if ids == [] then [] else Be(ids[0], 2) + JoinU16s(ids[1..])
  }

  function SplitU16s(b: Bytes): seq<u16>
    requires |b| % 2 == 0
  {
    if b == [] then [] else [U16(b[..2])] + SplitU16s(b[2..])
  }

  // ----- writing -----

  function NodeFields(d: NodeDescriptor): seq<Field> {
    [Field(AUTONOMOUS_SYSTEM, Word(d.asNumber)), Field(BGP_LS_ID, Word(d.bgpLsId)),
     Field(OSPF_AREA, Word(d.ospfAreaId)), Field(IGP_ROUTER, d.igpRouterId)]
  }

  function NodeTlvs(d: NodeDescriptor): seq<Tlv> {
    Flat(NodeFields(d)) + d.unknown
  }

  function NodeBytes(d: NodeDescriptor): Bytes {
    WriteTlvs(NodeTlvs(d))
  }

  // Both link identifiers share one TLV.
  function LinkIds(d: LinkDescriptor): Option<Bytes> {
    if d.localId.Some? && d.remoteId.Some? then Some(Be(d.localId.value, 4) + Be(d.remoteId.value, 4)) else None
  }

  function LinkFields(local: NodeDescriptor, remote: NodeDescriptor, d: LinkDescriptor): seq<Field> {
    [Field(LOCAL_NODE, Some(NodeBytes(local))), Field(REMOTE_NODE, Some(NodeBytes(remote))),
     Field(LINK_IDS, LinkIds(d)), Field(IPV4_INTERFACE, d.ipv4Interface), Field(IPV4_NEIGHBOR, d.ipv4Neighbor),
     Field(IPV6_INTERFACE, d.ipv6Interface), Field(IPV6_NEIGHBOR, d.ipv6Neighbor),
     Field(MULTI_TOPOLOGY, Topologies(d.multiTopology))]
  }

  function RouteType(v: Option<u8>): Option<Bytes> {
    if v.Some? then Some([v.value]) else None
  }

  function PrefixFields(local: NodeDescriptor, d: PrefixDescriptor): seq<Field> {
    [Field(LOCAL_NODE, Some(NodeBytes(local))), Field(MULTI_TOPOLOGY, Topologies(d.multiTopology)),
     Field(OSPF_ROUTE_TYPE, RouteType(d.ospfRouteType)), Field(IP_REACHABILITY, d.ipReachability)]
  }

  function Fields(d: Descriptors): seq<Field> {
    match d
    case Node(local) => [Field(LOCAL_NODE, Some(NodeBytes(local)))]
    case Link(local, remote, link) => LinkFields(local, remote, link)
    case PrefixV4(local, prefix) => PrefixFields(local, prefix)
    case PrefixV6(local, prefix) => PrefixFields(local, prefix)
  }

  function Unknown(d: Descriptors): seq<Tlv> {
    match d
    case Node(_) => []
    case Link(_, _, link) => link.unknown
    case PrefixV4(_, prefix) => prefix.unknown
    case PrefixV6(_, prefix) => prefix.unknown
  }

  function DescriptorTlvs(d: Descriptors): seq<Tlv> {
    Flat(Fields(d)) + Unknown(d)
  }

  // ----- reading -----

  function ApplySub(d: NodeDescriptor, t: Tlv): Result<NodeDescriptor> {
    if NodeField(t.tlvType) && t.tlvType != IGP_ROUTER && |t.value| != 4 then Err
    else Ok(
      if t.tlvType == AUTONOMOUS_SYSTEM then d.(asNumber := Some(U32(t.value)))
      else if t.tlvType == BGP_LS_ID then d.(bgpLsId := Some(U32(t.value)))
      else if t.tlvType == OSPF_AREA then d.(ospfAreaId := Some(U32(t.value)))
      else if t.tlvType == IGP_ROUTER then d.(igpRouterId := Some(t.value))
      else d.(unknown := d.unknown + [t]))
  }

  function ApplySubs(d: NodeDescriptor, ts: seq<Tlv>): Result<NodeDescriptor>
    decreases ts
  {
    if ts == [] then Ok(d)
    else
      var d' :- ApplySub(d, ts[0]);
      ApplySubs(d', ts[1..])
  }

  function ParseNode(b: Bytes): Result<NodeDescriptor> {
    var ts :- ParseTlvs(b);
    if !UniqueTypes(ts) then Err else ApplySubs(EMPTY_NODE, ts)
  }

  // The loop of `parse_node_descriptor`: fields are set one by one.
  method ParseNodeLoop(bytes: Bytes) returns (r: Result<NodeDescriptor>)
    ensures r == ParseNode(bytes)
  {
    hide ApplySub, ParseTlvs, UniqueTypes;
    var parsed := ParseTlvLoop(bytes);
    if parsed.Err? {
      return Err;
    }
    var ts := parsed.value;
    var unique := UniqueLoop(ts);
    if !unique {
      return Err;
    }
    var d := EMPTY_NODE;
    var i := 0;
    assert ts[0..] == ts;
    while i < |ts|
      invariant 0 <= i <= |ts|
      invariant ApplySubs(d, ts[i..]) == ApplySubs(EMPTY_NODE, ts)
    {
      assert ts[i..][1..] == ts[i + 1..] && ts[i..][0] == ts[i];
      var next := ApplySub(d, ts[i]);
      if next.Err? {
        return Err;
      }
      d := next.value;
      i := i + 1;
    }
    r := Ok(d);
  }

  // Unknown TLVs come type by type, in the iteration order of a hash map.
  function Unknowns(ts: seq<Tlv>, order: seq<u16>): seq<Tlv> {
    if order == [] then []
    else (if Known(order[0]) then [] else OfType(ts, order[0])) + Unknowns(ts, order[1..])
  }

  predicate BadLength(v: Option<Bytes>, n: nat) { v.Some? && |v.value| != n }

  predicate Odd(v: Option<Bytes>) { v.Some? && |v.value| % 2 != 0 }

  function ParseLink(ts: seq<Tlv>, order: seq<u16>): Result<LinkDescriptor> {
    var ids, mt := First(ts, LINK_IDS), First(ts, MULTI_TOPOLOGY);
    var v4i, v4n := First(ts, IPV4_INTERFACE), First(ts, IPV4_NEIGHBOR);
    var v6i, v6n := First(ts, IPV6_INTERFACE), First(ts, IPV6_NEIGHBOR);
    if BadLength(ids, 8) || BadLength(v4i, 4) || BadLength(v4n, 4) || BadLength(v6i, 16) || BadLength(v6n, 16)
       || Odd(mt) then Err
    else Ok(LinkDescriptor(
      if ids.Some? then Some(U32(ids.value[..4])) else None,
      if ids.Some? then Some(U32(ids.value[4..])) else None,
      if v4i.Some? then Some(v4i.value) else None,
      if v4n.Some? then Some(v4n.value) else None,
      if v6i.Some? then Some(v6i.value) else None,
      if v6n.Some? then Some(v6n.value) else None,
      if mt.Some? then Some(SplitU16s(mt.value)) else None,
      Unknowns(ts, order)))
  }

  function ParsePrefix(ts: seq<Tlv>, order: seq<u16>): Result<PrefixDescriptor> {
    var mt, rt := First(ts, MULTI_TOPOLOGY), First(ts, OSPF_ROUTE_TYPE);
    if Odd(mt) || BadLength(rt, 1) then Err
    else Ok(PrefixDescriptor(
      if mt.Some? then Some(SplitU16s(mt.value)) else None,
      if rt.Some? then Some(rt.value[0]) else None,
      First(ts, IP_REACHABILITY),
      Unknowns(ts, order)))
  }

  // The order in which the hash map of a TLV list is iterated.
  type Order = seq<Tlv> -> seq<u16>

  function ParseDescriptors(kind: Kind, b: Bytes, order: Order): Result<Descriptors> {
    var ts :- ParseTlvs(b);
    if !Ordered(ts) || First(ts, LOCAL_NODE).None? then Err
    else
      var local :- ParseNode(First(ts, LOCAL_NODE).value);
      match kind
      case NodeKind => Ok(Node(local))
      case LinkKind =>
        if First(ts, REMOTE_NODE).None? then Err
        else
          var remote :- ParseNode(First(ts, REMOTE_NODE).value);
          var link :- ParseLink(ts, order(ts));
          Ok(Link(local, remote, link))
      case PrefixV4Kind => var p :- ParsePrefix(ts, order(ts)); Ok(PrefixV4(local, p))
      case PrefixV6Kind => var p :- ParsePrefix(ts, order(ts)); Ok(PrefixV6(local, p))
  }

  // ----- fields come back -----

  lemma {:induction false} FirstConcat(a: seq<Tlv>, b: seq<Tlv>, t: u16)
    ensures First(a + b, t) == if First(a, t).Some? then First(a, t) else First(b, t)
  {
    if a == [] {
      assert a + b == b;
    } else {
      assert (a + b)[1..] == a[1..] + b;
      FirstConcat(a[1..], b, t);
    }
  }

  predicate NoType(ts: seq<Tlv>, t: u16) { forall x | x in ts :: x.tlvType != t }

  lemma {:induction false} FirstAbsent(ts: seq<Tlv>, t: u16)
    requires NoType(ts, t)
    ensures First(ts, t).None?
  {
    if ts != [] {
      FirstAbsent(ts[1..], t);
    }
  }

  lemma {:induction false} FlatTypes(fs: seq<Field>, x: Tlv)
    requires x in Flat(fs)
    ensures Field(x.tlvType, Some(x.value)) in fs
  {
    if fs[0] != Field(x.tlvType, Some(x.value)) {
      FlatTypes(fs[1..], x);
    }
  }

  // The i-th field of a list of fields is found by its type.
  lemma {:induction false} FirstFlat(fs: seq<Field>, us: seq<Tlv>, i: nat)
    requires Ascending(fs) && i < |fs| && NoType(us, fs[i].t)
    ensures First(Flat(fs) + us, fs[i].t) == fs[i].value
  {
    var head := if fs[0].value.Some? then [Tlv(fs[0].t, fs[0].value.value)] else [];
    var tail := Flat(fs[1..]) + us;
    assert Flat(fs) + us == head + tail;
    FirstConcat(head, tail, fs[i].t);
    if i > 0 {
      FirstFlat(fs[1..], us, i - 1);
    } else if fs[0].value.None? {
      assert head == [] && First(head, fs[0].t).None?;
      forall x | x in Flat(fs[1..]) ensures x.tlvType != fs[0].t {
        FlatTypes(fs[1..], x);
      }
      assert NoType(tail, fs[0].t);
      FirstAbsent(tail, fs[0].t);
    }
  }

  // A TLV in front of an ordered list with greater types.
  lemma OrderedFront(t: Tlv, tail: seq<Tlv>)
    requires Ordered(tail) && forall x | x in tail :: t.tlvType < x.tlvType
    ensures Ordered([t] + tail)
  {
    hide LexLeq;
    var all := [t] + tail;
    forall i | 0 < i < |all| ensures Leq(all[i - 1], all[i]) {
      if i == 1 {
        assert all[1] == tail[0] && tail[0] in tail;
      } else {
        assert all[i - 1] == tail[i - 2] && all[i] == tail[i - 1];
      }
    }
  }

  lemma {:induction false} FlatOrdered(fs: seq<Field>, us: seq<Tlv>)
    requires Ascending(fs) && Ordered(us) && forall f, u | f in fs && u in us :: f.t < u.tlvType
    ensures Ordered(Flat(fs) + us)
  {
    if fs == [] {
      assert Flat(fs) + us == us;
    } else {
      var rest, tail := fs[1..], Flat(fs[1..]) + us;
      assert Flat(fs) == (if fs[0].value.Some? then [Tlv(fs[0].t, fs[0].value.value)] else []) + Flat(rest);
      hide Flat, Ordered;
      assert forall f | f in rest :: f in fs;
      FlatOrdered(rest, us);
      if fs[0].value.Some? {
        var t := Tlv(fs[0].t, fs[0].value.value);
        forall x | x in tail ensures t.tlvType < x.tlvType {
          if x in Flat(rest) {
            FlatTypes(rest, x);
            var i :| 0 <= i < |rest| && rest[i] == Field(x.tlvType, Some(x.value));
            assert fs[0].t < fs[i + 1].t;
          } else {
            assert x in us && fs[0] in fs;
          }
        }
        OrderedFront(t, tail);
        assert Flat(fs) + us == [t] + tail;
      } else {
        assert Flat(fs) + us == tail;
      }
    }
  }

  lemma {:induction false} OfTypeConcat(a: seq<Tlv>, b: seq<Tlv>, t: u16)
    ensures OfType(a + b, t) == OfType(a, t) + OfType(b, t)
  {
    if a == [] {
      assert a + b == b && OfType(a, t) == [];
    } else {
      hide OfType;
      var rest, head := a[1..], if a[0].tlvType == t then [a[0]] else [];
      calc {
        OfType(a + b, t);
        { assert a + b == [a[0]] + (rest + b); }
        OfType([a[0]] + (rest + b), t);
        { OfTypeStep(a[0], rest + b, t); }
        head + OfType(rest + b, t);
        { OfTypeConcat(rest, b, t); }
        head + (OfType(rest, t) + OfType(b, t));
        head + OfType(rest, t) + OfType(b, t);
        { OfTypeStep(a[0], rest, t); assert a == [a[0]] + rest; }
        OfType(a, t) + OfType(b, t);
      }
    }
  }

  lemma OfTypeStep(x: Tlv, ts: seq<Tlv>, t: u16)
    ensures OfType([x] + ts, t) == (if x.tlvType == t then [x] else []) + OfType(ts, t)
  {
    assert ([x] + ts)[1..] == ts;
  }

  lemma {:induction false} OfTypeAbsent(ts: seq<Tlv>, t: u16)
    requires NoType(ts, t)
    ensures OfType(ts, t) == []
  {
    if ts != [] {
      OfTypeAbsent(ts[1..], t);
    }
  }

  // Known fields contribute nothing to the unknown TLVs.
  lemma {:induction false} UnknownsFlat(fs: seq<Field>, us: seq<Tlv>, order: seq<u16>)
    requires forall f | f in fs :: Known(f.t)
    ensures Unknowns(Flat(fs) + us, order) == Unknowns(us, order)
  {
    if order != [] {
      UnknownsFlat(fs, us, order[1..]);
      var t := order[0];
      if !Known(t) {
        OfTypeConcat(Flat(fs), us, t);
        forall x | x in Flat(fs) ensures x.tlvType != t {
          FlatTypes(fs, x);
        }
        OfTypeAbsent(Flat(fs), t);
        assert [] + OfType(us, t) == OfType(us, t);
      }
    }
  }

  lemma {:induction false} UnknownsAreUnknown(ts: seq<Tlv>, order: seq<u16>)
    ensures forall x | x in Unknowns(ts, order) :: x in ts && !Known(x.tlvType)
  {
    if order != [] {
      UnknownsAreUnknown(ts, order[1..]);
      forall x | x in OfType(ts, order[0]) ensures x in ts && x.tlvType == order[0] {
        OfTypeMember(ts, order[0], x);
      }
    }
  }

  lemma {:induction false} OfTypeMember(ts: seq<Tlv>, t: u16, x: Tlv)
    requires x in OfType(ts, t)
    ensures x in ts && x.tlvType == t
  {
    if x in OfType(ts[1..], t) {
      OfTypeMember(ts[1..], t, x);
    }
  }

  lemma {:induction false} SplitJoinU16s(ids: seq<u16>)
    ensures SplitU16s(JoinU16s(ids)) == ids
  {
    if ids != [] {
      var b := JoinU16s(ids);
      assert b[..2] == Be(ids[0], 2) && b[2..] == JoinU16s(ids[1..]);
      U16Back(ids[0]);
      SplitJoinU16s(ids[1..]);
    }
  }

  // ----- node descriptors -----

  // No sub-TLV type twice, and no unknown one that has a field.
  predicate NodeForm(d: NodeDescriptor) {
    UniqueTypes(d.unknown) && forall u | u in d.unknown :: !NodeField(u.tlvType)
  }

  lemma {:induction false} SubsConcat(d: NodeDescriptor, a: seq<Tlv>, b: seq<Tlv>)
    ensures ApplySubs(d, a + b) ==
            (match ApplySubs(d, a) case Err => Err case Ok(e) => ApplySubs(e, b))
    decreases a
  {
    hide ApplySub;
    if a == [] {
      assert a + b == b;
    } else {
      assert (a + b)[1..] == a[1..] + b;
      if ApplySub(d, a[0]).Ok? {
        SubsConcat(ApplySub(d, a[0]).value, a[1..], b);
      }
    }
  }

  lemma {:induction false} UnknownSubs(d: NodeDescriptor, us: seq<Tlv>)
    requires forall u | u in us :: !NodeField(u.tlvType)
    ensures ApplySubs(d, us) == Ok(d.(unknown := d.unknown + us))
    decreases us
  {
    if us == [] {
      assert d.unknown + us == d.unknown;
    } else {
      UnknownSubs(d.(unknown := d.unknown + [us[0]]), us[1..]);
      assert d.unknown + [us[0]] + us[1..] == d.unknown + us;
    }
  }

  // Reading leaves only unknown types among the unknown.
  lemma {:induction false} SubsKeepUnknown(d: NodeDescriptor, ts: seq<Tlv>, e: NodeDescriptor)
    requires ApplySubs(d, ts) == Ok(e) && forall u | u in d.unknown :: !NodeField(u.tlvType)
    ensures forall u | u in e.unknown :: !NodeField(u.tlvType)
    decreases ts
  {
    if ts != [] {
      SubsKeepUnknown(ApplySub(d, ts[0]).value, ts[1..], e);
    }
  }

  lemma WordBack(v: Option<u32>)
    ensures v.Some? ==> |Word(v).value| == 4 && U32(Word(v).value) == v.value
  {
    if v.Some? {
      U32Back(v.value);
    }
  }

  lemma NodeFieldsBack(d: NodeDescriptor)
    ensures ApplySubs(EMPTY_NODE, Flat(NodeFields(d))) == Ok(d.(unknown := []))
  {
    var fs := NodeFields(d);
    WordBack(d.asNumber);
    WordBack(d.bgpLsId);
    WordBack(d.ospfAreaId);
    var f0, f1, f2, f3 := Flat([fs[0]]), Flat([fs[1]]), Flat([fs[2]]), Flat([fs[3]]);
    FlatCons(fs);
    FlatCons(fs[1..]);
    FlatCons(fs[2..]);
    assert fs[3..] == [fs[3]];
    assert Flat(fs) == f0 + (f1 + (f2 + f3));
    var d1 := EMPTY_NODE.(asNumber := d.asNumber);
    var d2 := d1.(bgpLsId := d.bgpLsId);
    var d3 := d2.(ospfAreaId := d.ospfAreaId);
    SubStep(EMPTY_NODE, fs[0], d1);
    SubStep(d1, fs[1], d2);
    SubStep(d2, fs[2], d3);
    SubStep(d3, fs[3], d3.(igpRouterId := d.igpRouterId));
    SubsConcat(EMPTY_NODE, f0, f1 + (f2 + f3));
    SubsConcat(d1, f1, f2 + f3);
    SubsConcat(d2, f2, f3);
  }

  lemma FlatCons(fs: seq<Field>)
    requires fs != []
    ensures Flat(fs) == Flat([fs[0]]) + Flat(fs[1..])
  {
    assert Flat([fs[0]][1..]) == [];
    assert Flat([fs[0]]) == if fs[0].value.Some? then [Tlv(fs[0].t, fs[0].value.value)] else [];
  }

  lemma SubStep(d: NodeDescriptor, f: Field, e: NodeDescriptor)
    requires f.value.None? ==> e == d
    requires f.value.Some? ==> ApplySub(d, Tlv(f.t, f.value.value)) == Ok(e)
    ensures ApplySubs(d, Flat([f])) == Ok(e)
  {
    assert [f][1..] == [];
  }

  // A TLV of a new type in front of a list of distinct types.
  lemma UniqueFront(t: Tlv, tail: seq<Tlv>)
    requires UniqueTypes(tail) && NoType(tail, t.tlvType)
    ensures UniqueTypes([t] + tail)
  {
    var all := [t] + tail;
    forall i, j | 0 <= i < j < |all| ensures all[i].tlvType != all[j].tlvType {
      assert all[j] == tail[j - 1] && all[j] in tail;
      if i > 0 { assert all[i] == tail[i - 1]; }
    }
  }

  lemma {:induction false} FlatUnique(fs: seq<Field>, us: seq<Tlv>)
    requires Ascending(fs) && UniqueTypes(us) && forall f, u | f in fs && u in us :: f.t != u.tlvType
    ensures UniqueTypes(Flat(fs) + us)
  {
    if fs == [] {
      assert Flat(fs) + us == us;
    } else {
      var rest, tail := fs[1..], Flat(fs[1..]) + us;
      assert Flat(fs) == (if fs[0].value.Some? then [Tlv(fs[0].t, fs[0].value.value)] else []) + Flat(rest);
      hide Flat, UniqueTypes;
      assert forall f | f in rest :: f in fs;
      FlatUnique(rest, us);
      if fs[0].value.Some? {
        forall x | x in tail ensures x.tlvType != fs[0].t {
          if x in Flat(rest) {
            FlatTypes(rest, x);
            var i :| 0 <= i < |rest| && rest[i] == Field(x.tlvType, Some(x.value));
            assert fs[0].t < fs[i + 1].t;
          } else {
            assert x in us && fs[0] in fs;
          }
        }
        UniqueFront(Tlv(fs[0].t, fs[0].value.value), tail);
        assert Flat(fs) + us == [Tlv(fs[0].t, fs[0].value.value)] + tail;
      } else {
        assert Flat(fs) + us == tail;
      }
    }
  }

  lemma NodeReads(d: NodeDescriptor)
    requires NodeForm(d)
    ensures UniqueTypes(NodeTlvs(d)) && ApplySubs(EMPTY_NODE, NodeTlvs(d)) == Ok(d)
  {
    hide ApplySubs, Flat;
    FlatUnique(NodeFields(d), d.unknown);
    NodeFieldsBack(d);
    SubsConcat(EMPTY_NODE, Flat(NodeFields(d)), d.unknown);
    UnknownSubs(d.(unknown := []), d.unknown);
    assert [] + d.unknown == d.unknown;
  }

  lemma UniqueTail(a: seq<Tlv>, b: seq<Tlv>)
    requires UniqueTypes(a + b)
    ensures UniqueTypes(b)
  {
    forall i, j | 0 <= i < j < |b| ensures b[i].tlvType != b[j].tlvType {
      assert (a + b)[|a| + i] == b[i] && (a + b)[|a| + j] == b[j];
    }
  }

  lemma NodeReadsOnly(d: NodeDescriptor)
    requires UniqueTypes(NodeTlvs(d)) && ApplySubs(EMPTY_NODE, NodeTlvs(d)) == Ok(d)
    ensures NodeForm(d)
  {
    hide ApplySubs, Flat, UniqueTypes;
    SubsKeepUnknown(EMPTY_NODE, NodeTlvs(d), d);
    UniqueTail(Flat(NodeFields(d)), d.unknown);
  }

  // A node descriptor comes back exactly when no sub-TLV type is repeated or misplaced.
  lemma NodeBack(d: NodeDescriptor)
    requires AllFit(NodeTlvs(d))
    ensures ParseNode(NodeBytes(d)) == Ok(d) <==> NodeForm(d)
  {
    hide WriteTlvs, ParseTlvs, ApplySubs, NodeTlvs, UniqueTypes, NodeForm;
    ParseWrittenAlone(NodeTlvs(d));
    if NodeForm(d) {
      NodeReads(d);
    } else if ParseNode(NodeBytes(d)) == Ok(d) {
      NodeReadsOnly(d);
    }
  }

  // ----- link and prefix descriptors -----

  predicate UnknownForm(us: seq<Tlv>) {
    Ordered(us) && forall u | u in us :: u.tlvType > IP_REACHABILITY && !Known(u.tlvType)
  }

  lemma FieldsAscend(d: Descriptors)
    ensures Ascending(Fields(d)) && forall f | f in Fields(d) :: LOCAL_NODE <= f.t <= IP_REACHABILITY
  {
    hide NodeBytes;
  }

  lemma FieldFound(d: Descriptors, us: seq<Tlv>, i: nat)
    requires i < |Fields(d)| && (forall u | u in us :: !Known(u.tlvType))
    ensures First(Flat(Fields(d)) + us, Fields(d)[i].t) == Fields(d)[i].value
  {
    hide NodeBytes, Flat, First, Fields;
    FieldsAscend(d);
    assert Fields(d)[i] in Fields(d);
    FirstFlat(Fields(d), us, i);
  }

  lemma TopologiesBack(v: Option<seq<u16>>)
    ensures v.Some? ==> |Topologies(v).value| % 2 == 0 && SplitU16s(Topologies(v).value) == v.value
  {
    if v.Some? {
      SplitJoinU16s(v.value);
    }
  }

  lemma LinkIdsBack(d: LinkDescriptor)
    requires LinkIds(d).Some?
    ensures var b := LinkIds(d).value;
      |b| == 8 && U32(b[..4]) == d.localId.value && U32(b[4..]) == d.remoteId.value
  {
    var b := LinkIds(d).value;
    assert b[..4] == Be(d.localId.value, 4) && b[4..] == Be(d.remoteId.value, 4);
    U32Back(d.localId.value);
    U32Back(d.remoteId.value);
  }

  // What parsing makes of a written link descriptor: identifiers only in pairs, unknown
  // TLVs in iteration order.
  lemma LinkReads(d: Descriptors, us: seq<Tlv>, order: seq<u16>)
    requires d.Link? && forall u | u in us :: !Known(u.tlvType)
    ensures var l := d.link;
      ParseLink(Flat(Fields(d)) + us, order) ==
      Ok(l.(localId := if l.remoteId.Some? then l.localId else None)
          .(remoteId := if l.localId.Some? then l.remoteId else None)
          .(unknown := Unknowns(us, order)))
  {
    hide NodeBytes, Flat, First, Unknowns, SplitU16s, JoinU16s;
    FieldsAscend(d);
    FieldFound(d, us, 2);
    FieldFound(d, us, 3);
    FieldFound(d, us, 4);
    FieldFound(d, us, 5);
    FieldFound(d, us, 6);
    FieldFound(d, us, 7);
    UnknownsFlat(Fields(d), us, order);
    TopologiesBack(d.link.multiTopology);
    if LinkIds(d.link).Some? {
      LinkIdsBack(d.link);
    }
  }

  lemma PrefixReads(d: Descriptors, us: seq<Tlv>, order: seq<u16>)
    requires d.PrefixV4? || d.PrefixV6?
    requires forall u | u in us :: !Known(u.tlvType)
    ensures ParsePrefix(Flat(Fields(d)) + us, order) == Ok(d.prefix.(unknown := Unknowns(us, order)))
  {
    hide NodeBytes, Flat, First, Unknowns, SplitU16s, JoinU16s;
    FieldsAscend(d);
    FieldFound(d, us, 1);
    FieldFound(d, us, 2);
    FieldFound(d, us, 3);
    UnknownsFlat(Fields(d), us, order);
    TopologiesBack(d.prefix.multiTopology);
  }

  // ----- whole descriptors -----

  // All lengths fit their 16-bit fields.
  predicate DescriptorsFit(d: Descriptors) {
    && AllFit(DescriptorTlvs(d))
    && AllFit(NodeTlvs(d.local))
    && (d.Link? ==> AllFit(NodeTlvs(d.remote)))
  }

  // What the wire form can hold: proper node descriptors, link identifiers in pairs, and
  // unknown TLVs sorted after the known ones.
  predicate Form(d: Descriptors) {
    && NodeForm(d.local)
    && (d.Link? ==> NodeForm(d.remote) && (d.link.localId.Some? <==> d.link.remoteId.Some?))
    && UnknownForm(Unknown(d))
  }

  // The iteration order happens to be the order of the unknown TLVs.
  predicate Regrouped(d: Descriptors, order: Order) {
    Unknowns(Unknown(d), order(DescriptorTlvs(d))) == Unknown(d)
  }

  lemma FormOrdered(d: Descriptors)
    requires UnknownForm(Unknown(d))
    ensures Ordered(DescriptorTlvs(d))
  {
    hide Flat, Fields, Leq, Unknown;
    FieldsAscend(d);
    FlatOrdered(Fields(d), Unknown(d));
  }

  lemma NodesFound(d: Descriptors)
    requires forall u | u in Unknown(d) :: !Known(u.tlvType)
    ensures First(DescriptorTlvs(d), LOCAL_NODE) == Some(NodeBytes(d.local))
    ensures d.Link? ==> First(DescriptorTlvs(d), REMOTE_NODE) == Some(NodeBytes(d.remote))
  {
    hide Flat, First, NodeBytes, Unknown;
    FieldFound(d, Unknown(d), 0);
    if d.Link? {
      FieldFound(d, Unknown(d), 1);
    }
  }

  function WithUnknown(d: Descriptors, us: seq<Tlv>): Descriptors {
    match d
    case Node(_) => d
    case Link(local, remote, link) => Link(local, remote, link.(unknown := us))
    case PrefixV4(local, prefix) => PrefixV4(local, prefix.(unknown := us))
    case PrefixV6(local, prefix) => PrefixV6(local, prefix.(unknown := us))
  }

  lemma DescriptorsRead(d: Descriptors, order: Order)
    requires DescriptorsFit(d) && Form(d)
    ensures ParseDescriptors(KindOf(d), WriteTlvs(DescriptorTlvs(d)), order) ==
            Ok(WithUnknown(d, Unknowns(Unknown(d), order(DescriptorTlvs(d)))))
  {
    hide ParseTlvs, WriteTlvs, Flat, Fields, First, NodeBytes, ParseNode, ParseLink, ParsePrefix, Unknowns, NodeForm,
      AllFit, Ordered, Leq;
    var ts := DescriptorTlvs(d);
    ParseWrittenAlone(ts);
    FormOrdered(d);
    NodesFound(d);
    NodeBack(d.local);
    match d {
      case Node(_) =>
      case Link(_, remote, _) => NodeBack(remote); LinkReads(d, Unknown(d), order(ts));
      case _ => PrefixReads(d, Unknown(d), order(ts));
    }
  }

  lemma {:induction false} FlatHead(d: Descriptors)
    ensures DescriptorTlvs(d) != [] && DescriptorTlvs(d)[0] == Tlv(LOCAL_NODE, NodeBytes(d.local))
  {
    hide NodeBytes;
    var fs := Fields(d);
    assert fs[0] == Field(LOCAL_NODE, Some(NodeBytes(d.local)));
    assert Flat(fs) == [Tlv(LOCAL_NODE, NodeBytes(d.local))] + Flat(fs[1..]);
  }

  // The other direction: what is read back has the form.
  lemma UnknownsFormed(d: Descriptors, ts: seq<Tlv>, order: seq<u16>)
    requires ts == DescriptorTlvs(d) && Ordered(ts) && Unknown(d) == Unknowns(ts, order)
    ensures UnknownForm(Unknown(d))
  {
    hide Flat, Fields, Leq, Unknowns, Unknown, NodeBytes;
    UnknownsAreUnknown(ts, order);
    FlatHead(d);
    OrderedSorted(ts);
    var n := |Flat(Fields(d))|;
    forall u | u in Unknown(d) ensures u.tlvType > IP_REACHABILITY {
      var i :| 0 <= i < |ts| && ts[i] == u;
      assert Leq(ts[0], ts[i]);
      LeqTypes(ts[0], u);
    }
    forall i | 0 < i < |Unknown(d)| ensures Leq(Unknown(d)[i - 1], Unknown(d)[i]) {
      assert ts[n + i - 1] == Unknown(d)[i - 1] && ts[n + i] == Unknown(d)[i];
      assert Leq(ts[n + i - 1], ts[n + i]);
    }
  }

  lemma LeqTypes(a: Tlv, b: Tlv)
    requires Leq(a, b)
    ensures a.tlvType <= b.tlvType
  {
  }

  lemma LinkIdsPaired(ts: seq<Tlv>, order: seq<u16>, l: LinkDescriptor)
    requires ParseLink(ts, order) == Ok(l)
    ensures (l.localId.Some? <==> l.remoteId.Some?) && l.unknown == Unknowns(ts, order)
  {
    hide First, Unknowns, SplitU16s;
  }

  lemma DescriptorsReadOnly(d: Descriptors, order: Order)
    requires DescriptorsFit(d)
    requires ParseDescriptors(KindOf(d), WriteTlvs(DescriptorTlvs(d)), order) == Ok(d)
    ensures Form(d) && Regrouped(d, order)
  {
    hide ParseTlvs, WriteTlvs, Flat, Fields, First, NodeBytes, ParseNode, ParseLink, Unknowns, NodeForm, AllFit,
      Ordered, Leq, UnknownForm, SplitU16s;
    var ts := DescriptorTlvs(d);
    ParseWrittenAlone(ts);
    if d.Node? {
      NothingUnknown(order(ts));
    } else {
      if d.Link? { LinkIdsPaired(ts, order(ts), d.link); }
      UnknownsFormed(d, ts, order(ts));
      FieldsAscend(d);
      UnknownsFlat(Fields(d), Unknown(d), order(ts));
    }
    UnknownFormKnown(Unknown(d));
    NodesFound(d);
    NodeBack(d.local);
    if d.Link? { NodeBack(d.remote); }
  }

  lemma UnknownFormKnown(us: seq<Tlv>)
    requires UnknownForm(us)
    ensures forall u | u in us :: !Known(u.tlvType)
  {
  }

  lemma {:induction false} NothingUnknown(order: seq<u16>)
    ensures Unknowns([], order) == [] && UnknownForm([])
  {
    if order != [] {
      NothingUnknown(order[1..]);
    }
  }

  // Descriptors that are written and read come back exactly when they have the form and
  // the hash map iterates their unknown types in order.
  lemma DescriptorsBack(d: Descriptors, order: Order)
    requires DescriptorsFit(d)
    ensures ParseDescriptors(KindOf(d), WriteTlvs(DescriptorTlvs(d)), order) == Ok(d) <==>
            Form(d) && Regrouped(d, order)
  {
    hide ParseDescriptors, WriteTlvs, DescriptorTlvs, DescriptorsFit, Form, Unknowns;
    if Form(d) && Regrouped(d, order) {
      DescriptorsRead(d, order);
    } else if ParseDescriptors(KindOf(d), WriteTlvs(DescriptorTlvs(d)), order) == Ok(d) {
      DescriptorsReadOnly(d, order);
    }
  }

  // ----- iteration orders -----

  // A hash map yields every key once.
  ghost predicate IterationOrder(order: Order) {
    forall ts: seq<Tlv> ::
      (forall i, j | 0 <= i < j < |order(ts)| :: order(ts)[i] != order(ts)[j])
      && (forall t :: t in order(ts) <==> !NoType(ts, t))
  }

  lemma {:induction false} OfTypeAll(ts: seq<Tlv>, t: u16)
    requires forall x | x in ts :: x.tlvType == t
    ensures OfType(ts, t) == ts
  {
    if ts != [] {
      OfTypeAll(ts[1..], t);
    }
  }

  lemma {:induction false} OneUnknownType(us: seq<Tlv>, t: u16, order: seq<u16>)
    requires !Known(t) && (forall x | x in us :: x.tlvType == t)
    requires forall i, j | 0 <= i < j < |order| :: order[i] != order[j]
    ensures Unknowns(us, order) == if t in order then us else []
  {
    if order != [] {
      OneUnknownType(us, t, order[1..]);
      if order[0] == t {
        OfTypeAll(us, t);
        assert t !in order[1..];
        assert us + [] == us;
      } else {
        OfTypeAbsent(us, order[0]);
      }
    }
  }

  // With unknown TLVs of at most one type the iteration order does not matter.
  lemma OneTypeRegroups(d: Descriptors, t: u16, order: Order)
    requires IterationOrder(order) && !Known(t) && forall u | u in Unknown(d) :: u.tlvType == t
    ensures Regrouped(d, order)
  {
    hide Unknowns, Flat, Fields, Unknown;
    var ts := DescriptorTlvs(d);
    OneUnknownType(Unknown(d), t, order(ts));
    if Unknown(d) != [] {
      assert Unknown(d)[0] in ts;
      assert t in order(ts);
    }
  }

  lemma {:induction false} CountOfType(ts: seq<Tlv>, t: u16, x: Tlv)
    ensures multiset(OfType(ts, t))[x] == if x.tlvType == t then multiset(ts)[x] else 0
  {
    if ts != [] {
      CountOfType(ts[1..], t, x);
      assert ts == [ts[0]] + ts[1..];
    }
  }

  lemma {:induction false} CountUnknowns(ts: seq<Tlv>, order: seq<u16>, x: Tlv)
    requires forall i, j | 0 <= i < j < |order| :: order[i] != order[j]
    ensures multiset(Unknowns(ts, order))[x] ==
            if x.tlvType in order && !Known(x.tlvType) then multiset(ts)[x] else 0
  {
    if order != [] {
      CountUnknowns(ts, order[1..], x);
      CountOfType(ts, order[0], x);
    }
  }

  // Whatever the iteration order, descriptors of the form come back up to the order of
  // their unknown TLVs.
  lemma DescriptorsUpToOrder(d: Descriptors, order: Order)
    requires DescriptorsFit(d) && Form(d) && IterationOrder(order)
    ensures var us := Unknowns(Unknown(d), order(DescriptorTlvs(d)));
      multiset(us) == multiset(Unknown(d)) &&
      ParseDescriptors(KindOf(d), WriteTlvs(DescriptorTlvs(d)), order) == Ok(WithUnknown(d, us))
  {
    hide ParseDescriptors, WriteTlvs, Unknowns, Flat, Fields, Unknown, Ordered;
    var ts := DescriptorTlvs(d);
    DescriptorsRead(d, order);
    forall x: Tlv ensures multiset(Unknowns(Unknown(d), order(ts)))[x] == multiset(Unknown(d))[x] {
      CountUnknowns(Unknown(d), order(ts), x);
      if x in Unknown(d) {
        assert x in ts;
        assert x.tlvType in order(ts);
      }
    }
  }
}
