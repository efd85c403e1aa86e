// The BGP-LS attribute (bgpgg/src/bgp/bgpls_attr.rs; section 5.3 of RFC 9552). Names are
// kept as bytes; which byte strings are UTF-8 is a parameter.
module LsAttr {
  import opened Bytes
  import opened Decimal
  import opened LsDescriptors
  import opened Tlv
  import opened Wrappers

  type Eight = s: seq<u32> | |s| == 8 witness [0, 0, 0, 0, 0, 0, 0, 0]

  datatype NodeAttr =
    | FlagBits(flags: u8)
    | OpaqueNode(data: Bytes)
    | NodeName(name: Bytes)
    | IsisAreaId(data: Bytes)
    | Ipv4RouterId(ipv4: Octets4)
    | Ipv6RouterId(ipv6: Octets16)

  datatype LinkAttr =
    | Ipv4RouterIdLocal(ipv4: Octets4)
    | Ipv6RouterIdLocal(ipv6: Octets16)
    | Ipv4RouterIdRemote(ipv4: Octets4)
    | Ipv6RouterIdRemote(ipv6: Octets16)
    | AdminGroup(u32: u32)
    | MaxLinkBw(u32: u32)
    | MaxRsvblLinkBw(u32: u32)
    | UnreservedBw(bw: Eight)
    | TeDefaultMetric(u32: u32)
    | LinkProtection(u16: u16)
    | MplsProtocolMask(flags: u8)
    | IgpMetric(u32: u32)
    | Srlg(groups: seq<u32>)
    | OpaqueLink(data: Bytes)
    | LinkName(name: Bytes)

  datatype PrefixAttr =
    | IgpFlags(flags: u8)
    | IgpRouteTag(tags: seq<u32>)
    | IgpExtendedRouteTag(extended: seq<u64>)
    | Metric(u32: u32)
    | OspfFwdV4(ipv4: Octets4)
    | OspfFwdV6(ipv6: Octets16)
    | OpaquePrefix(data: Bytes)

  datatype Attr = NodeA(node: NodeAttr) | LinkA(link: LinkAttr) | PrefixA(prefix: PrefixAttr) | Unknown(tlv: Tlv)

  datatype LsAttr = LsAttr(raw: Bytes, tlvs: seq<Attr>)

  type Utf8 = Bytes -> bool

  // ----- numbers in a row -----

  function JoinU32s(vs: seq<u32>): (b: Bytes)
    ensures |b| == 4 * |vs|
  {
    if vs == [] then [] else Be(vs[0], 4) + JoinU32s(vs[1..])
  }

  function SplitU32s(b: Bytes): (vs: seq<u32>)
    requires |b| % 4 == 0
    ensures 4 * |vs| == |b|
  {
    if b == [] then [] else [U32(b[..4])] + SplitU32s(b[4..])
  }

  function JoinU64s(vs: seq<u64>): (b: Bytes)
    ensures |b| == 8 * |vs|
  {
    if vs == [] then [] else Be(vs[0], 8) + JoinU64s(vs[1..])
  }

  function SplitU64s(b: Bytes): (vs: seq<u64>)
    requires |b| % 8 == 0
    ensures 8 * |vs| == |b|
  {
    if b == [] then [] else [U64(b[..8])] + SplitU64s(b[8..])
  }

  lemma {:induction false} SplitJoinU32s(vs: seq<u32>)
    ensures SplitU32s(JoinU32s(vs)) == vs
  {
    if vs != [] {
      var b := JoinU32s(vs);
      assert b[..4] == Be(vs[0], 4) && b[4..] == JoinU32s(vs[1..]);
      U32Back(vs[0]);
      SplitJoinU32s(vs[1..]);
    }
  }

  lemma {:induction false} JoinSplitU32s(b: Bytes)
    requires |b| % 4 == 0
    ensures JoinU32s(SplitU32s(b)) == b
  {
    if b != [] {
      BeNum(b[..4]);
      JoinSplitU32s(b[4..]);
      assert SplitU32s(b)[1..] == SplitU32s(b[4..]);
      assert b[..4] + b[4..] == b;
    }
  }

  lemma {:induction false} SplitJoinU64s(vs: seq<u64>)
    ensures SplitU64s(JoinU64s(vs)) == vs
  {
    if vs != [] {
      var b := JoinU64s(vs);
      assert b[..8] == Be(vs[0], 8) && b[8..] == JoinU64s(vs[1..]);
      U64Back(vs[0]);
      SplitJoinU64s(vs[1..]);
    }
  }

  lemma {:induction false} JoinSplitU64s(b: Bytes)
    requires |b| % 8 == 0
    ensures JoinU64s(SplitU64s(b)) == b
  {
    if b != [] {
      BeNum(b[..8]);
      JoinSplitU64s(b[8..]);
      assert SplitU64s(b)[1..] == SplitU64s(b[8..]);
      assert b[..8] + b[8..] == b;
    }
  }

  // ----- the IGP metric -----

  // The four bytes without leading zeros, keeping the last.
  function MetricBytes(v: u32): Bytes {
    var b := Be(v, 4);
    if b[0] != 0 then b else if b[1] != 0 then b[1..] else if b[2] != 0 then b[2..] else b[3..]
  }

  lemma {:induction false} NumZero(b: Bytes)
    ensures Num([0] + b) == Num(b)
  {
    if b != [] {
      var front := b[..|b| - 1];
      assert ([0] + b)[..|b|] == [0] + front;
      NumZero(front);
    } else {
      assert ([0] + b)[..0] == [];
    }
  }

  lemma {:induction false} NumLead(b: Bytes)
    requires b != [] && b[0] != 0
    ensures Num(b) >= Pow256(|b| - 1)
  {
    if |b| > 1 {
      NumLead(b[..|b| - 1]);
    } else {
      assert b[..0] == [];
    }
  }

  // The written metric is the shortest text of the number: its value is the metric, and
  // four bytes are needed exactly from 2^24 on.
  lemma MetricWritten(v: u32)
    ensures var m := MetricBytes(v);
      1 <= |m| <= 4 && Num(m) == v && (|m| == 1 || m[0] != 0) && (|m| <= 3 <==> v < 0x100_0000)
  {
    var b := Be(v, 4);
    Pow256Values();
    NumBe(v, 4);
    assert b[0] == 0 ==> [0] + b[1..] == b;
    assert b[1] == 0 ==> [0] + b[2..] == b[1..];
    assert b[2] == 0 ==> [0] + b[3..] == b[2..];
    NumZero(b[1..]);
    NumZero(b[2..]);
    NumZero(b[3..]);
    if b[0] != 0 {
      NumLead(b);
    }
  }

  lemma {:induction false} NumInjective(a: Bytes, b: Bytes)
    requires |a| == |b| && Num(a) == Num(b)
    ensures a == b
  {
    BeNum(a);
    BeNum(b);
  }

  // Equal numbers without leading zeros have equal bytes.
  lemma ShortestUnique(a: Bytes, b: Bytes)
    requires 1 <= |a| && 1 <= |b| && Num(a) == Num(b)
    requires (|a| == 1 || a[0] != 0) && (|b| == 1 || b[0] != 0)
    ensures a == b
  {
    if |a| == |b| {
      NumInjective(a, b);
    } else if |a| < |b| {
      NumLead(b);
      PowMonotone(|a|, |b| - 1);
    } else {
      NumLead(a);
      PowMonotone(|b|, |a| - 1);
    }
  }

  lemma {:induction false} PowMonotone(m: nat, n: nat)
    requires m <= n
    ensures Pow256(m) <= Pow256(n)
  {
    if m < n {
      PowMonotone(m, n - 1);
    }
  }

  // `metric = (metric << 8) | byte` over the bytes of the value.
  method MetricLoop(value: Bytes) returns (metric: nat)
    ensures metric == Num(value)
  {
    metric := 0;
    for i := 0 to |value|
      invariant metric == Num(value[..i])
    {
      assert value[..i + 1][..i] == value[..i];
      metric := metric * 256 + value[i];
    }
    assert value[..|value|] == value;
  }

  // ----- single TLVs -----

  function WriteNode(a: NodeAttr): Tlv {
    match a
    case FlagBits(v) => Tlv(1024, [v])
    case OpaqueNode(v) => Tlv(1025, v)
    case NodeName(v) => Tlv(1026, v)
    case IsisAreaId(v) => Tlv(1027, v)
    case Ipv4RouterId(v) => Tlv(1028, v)
    case Ipv6RouterId(v) => Tlv(1029, v)
  }

  function WriteLink(a: LinkAttr): Tlv {
    match a
    case Ipv4RouterIdLocal(v) => Tlv(1028, v)
    case Ipv6RouterIdLocal(v) => Tlv(1029, v)
    case Ipv4RouterIdRemote(v) => Tlv(1030, v)
    case Ipv6RouterIdRemote(v) => Tlv(1031, v)
    case AdminGroup(v) => Tlv(1088, Be(v, 4))
    case MaxLinkBw(v) => Tlv(1089, Be(v, 4))
    case MaxRsvblLinkBw(v) => Tlv(1090, Be(v, 4))
    case UnreservedBw(v) => Tlv(1091, JoinU32s(v))
    case TeDefaultMetric(v) => Tlv(1092, Be(v, 4))
    case LinkProtection(v) => Tlv(1093, Be(v, 2))
    case MplsProtocolMask(v) => Tlv(1094, [v])
    case IgpMetric(v) => Tlv(1095, MetricBytes(v))
    case Srlg(v) => Tlv(1096, JoinU32s(v))
    case OpaqueLink(v) => Tlv(1097, v)
    case LinkName(v) => Tlv(1098, v)
  }

  function WritePrefix(a: PrefixAttr): Tlv {
    match a
    case IgpFlags(v) => Tlv(1152, [v])
    case IgpRouteTag(v) => Tlv(1153, JoinU32s(v))
    case IgpExtendedRouteTag(v) => Tlv(1154, JoinU64s(v))
    case Metric(v) => Tlv(1155, Be(v, 4))
    case OspfFwdV4(v) => Tlv(1156, v)
    case OspfFwdV6(v) => Tlv(1156, v)
    case OpaquePrefix(v) => Tlv(1157, v)
  }

  function WriteAttr(a: Attr): Tlv {
    match a
    case NodeA(n) => WriteNode(n)
    case LinkA(l) => WriteLink(l)
    case PrefixA(p) => WritePrefix(p)
    case Unknown(t) => t
  }

  predicate NodeType(t: u16) { 1024 <= t <= 1029 }

  predicate LinkType(t: u16) { 1030 <= t <= 1031 || 1088 <= t <= 1098 }

  predicate PrefixType(t: u16) { 1152 <= t <= 1157 }

  predicate Recognised(t: u16) { NodeType(t) || LinkType(t) || PrefixType(t) }

  function ParseNodeAttr(t: u16, v: Bytes, utf8: Utf8): Option<NodeAttr>
    requires NodeType(t)
  {
    match t
    case 1024 => if |v| != 1 then None else Some(FlagBits(v[0]))
    case 1025 => Some(OpaqueNode(v))
    case 1026 => if utf8(v) then Some(NodeName(v)) else None
    case 1027 => Some(IsisAreaId(v))
    case 1028 => if |v| != 4 then None else Some(Ipv4RouterId(v))
    case _ => if |v| != 16 then None else Some(Ipv6RouterId(v))
  }

  function ParseLinkAttr(t: u16, v: Bytes, utf8: Utf8): Option<LinkAttr>
    requires LinkType(t)
  {
    match t
    case 1030 => if |v| != 4 then None else Some(Ipv4RouterIdRemote(v))
    case 1031 => if |v| != 16 then None else Some(Ipv6RouterIdRemote(v))
    case 1088 => if |v| != 4 then None else Some(AdminGroup(U32(v)))
    case 1089 => if |v| != 4 then None else Some(MaxLinkBw(U32(v)))
    case 1090 => if |v| != 4 then None else Some(MaxRsvblLinkBw(U32(v)))
    case 1091 => if |v| != 32 then None else Some(UnreservedBw(SplitU32s(v)))
    case 1092 => if |v| != 4 then None else Some(TeDefaultMetric(U32(v)))
    case 1093 => if |v| != 2 then None else Some(LinkProtection(U16(v)))
    case 1094 => if |v| != 1 then None else Some(MplsProtocolMask(v[0]))
    case 1095 =>
      if v == [] || |v| > 3 then None
      else
        Pow256Values();
        PowMonotone(|v|, 3);
        Some(IgpMetric(Num(v)))
    case 1096 => if |v| % 4 != 0 then None else Some(Srlg(SplitU32s(v)))
    case 1097 => Some(OpaqueLink(v))
    case _ => if utf8(v) then Some(LinkName(v)) else None
  }

  function ParsePrefixAttr(t: u16, v: Bytes): Option<PrefixAttr>
    requires PrefixType(t)
  {
    match t
    case 1152 => if |v| != 1 then None else Some(IgpFlags(v[0]))
    case 1153 => if |v| % 4 != 0 then None else Some(IgpRouteTag(SplitU32s(v)))
    case 1154 => if |v| % 8 != 0 then None else Some(IgpExtendedRouteTag(SplitU64s(v)))
    case 1155 => if |v| != 4 then None else Some(Metric(U32(v)))
    case 1156 => if |v| == 4 then Some(OspfFwdV4(v)) else if |v| == 16 then Some(OspfFwdV6(v)) else None
    case _ => Some(OpaquePrefix(v))
  }

  // `parse_attr_tlv`.
  function ParseAttr(t: Tlv, utf8: Utf8): Option<Attr> {
    if NodeType(t.tlvType) then var a :- ParseNodeAttr(t.tlvType, t.value, utf8); Some(NodeA(a))
    else if LinkType(t.tlvType) then var a :- ParseLinkAttr(t.tlvType, t.value, utf8); Some(LinkA(a))
    else if PrefixType(t.tlvType) then var a :- ParsePrefixAttr(t.tlvType, t.value); Some(PrefixA(a))
    else Some(Unknown(t))
  }

  // Router ids of the local end share their types with the node's and are read as those.
  function Normal(a: Attr): Attr {
    match a
    case LinkA(Ipv4RouterIdLocal(v)) => NodeA(Ipv4RouterId(v))
    case LinkA(Ipv6RouterIdLocal(v)) => NodeA(Ipv6RouterId(v))
    case _ => a
  }

  // Names are strings.
  predicate Named(a: Attr, utf8: Utf8) {
    match a
    case NodeA(NodeName(v)) => utf8(v)
    case LinkA(LinkName(v)) => utf8(v)
    case _ => true
  }

  // What the wire form can hold.
  predicate Writable(a: Attr) {
    match a
    case LinkA(IgpMetric(v)) => v < 0x100_0000
    case Unknown(t) => !Recognised(t.tlvType)
    case _ => true
  }

  lemma NodeBack(a: NodeAttr, utf8: Utf8)
    requires Named(NodeA(a), utf8)
    ensures ParseAttr(WriteNode(a), utf8) == Some(NodeA(a))
  {
  }

  lemma LinkBack(a: LinkAttr, utf8: Utf8)
    requires Named(LinkA(a), utf8)
    ensures ParseAttr(WriteLink(a), utf8) == if Writable(LinkA(a)) then Some(Normal(LinkA(a))) else None
  {
    hide SplitU32s, JoinU32s, MetricBytes;
    match a {
      case AdminGroup(v) => U32Back(v);
      case MaxLinkBw(v) => U32Back(v);
      case MaxRsvblLinkBw(v) => U32Back(v);
      case UnreservedBw(v) => SplitJoinU32s(v);
      case TeDefaultMetric(v) => U32Back(v);
      case LinkProtection(v) => U16Back(v);
      case IgpMetric(v) => MetricWritten(v);
      case Srlg(v) => SplitJoinU32s(v);
      case _ =>
    }
  }

  lemma PrefixBack(a: PrefixAttr, utf8: Utf8)
    ensures ParseAttr(WritePrefix(a), utf8) == Some(PrefixA(a))
  {
    hide SplitU32s, JoinU32s, SplitU64s, JoinU64s;
    match a {
      case IgpRouteTag(v) => SplitJoinU32s(v);
      case IgpExtendedRouteTag(v) => SplitJoinU64s(v);
      case Metric(v) => U32Back(v);
      case _ =>
    }
  }

  // A single TLV comes back, normalised, exactly when it is writable.
  lemma AttrBack(a: Attr, utf8: Utf8)
    requires Named(a, utf8)
    ensures ParseAttr(WriteAttr(a), utf8) == Some(Normal(a)) <==> Writable(a)
  {
    hide WriteNode, WriteLink, WritePrefix, ParseNodeAttr, ParseLinkAttr, ParsePrefixAttr;
    match a {
      case NodeA(n) => NodeBack(n, utf8);
      case LinkA(l) => LinkBack(l, utf8);
      case PrefixA(p) => PrefixBack(p, utf8);
      case Unknown(t) =>
    }
  }

  // The smallest IGP metric that is written in four bytes, and so not read back.
  lemma WideMetricExample(utf8: Utf8)
    ensures |WriteAttr(LinkA(IgpMetric(0x100_0000))).value| == 4
    ensures ParseAttr(WriteAttr(LinkA(IgpMetric(0x100_0000))), utf8).None?
  {
    hide MetricBytes, ParseNodeAttr, ParsePrefixAttr;
    MetricWritten(0x100_0000);
    LinkBack(IgpMetric(0x100_0000), utf8);
  }

  // ----- which TLVs are valid -----

  predicate ValidValue(t: u16, v: Bytes, utf8: Utf8) {
    if t in {1024, 1094, 1152} then |v| == 1
    else if t == 1093 then |v| == 2
    else if t in {1028, 1030, 1088, 1089, 1090, 1092, 1155} then |v| == 4
    else if t in {1029, 1031} then |v| == 16
    else if t == 1091 then |v| == 32
    else if t in {1026, 1098} then utf8(v)
    else if t == 1095 then 1 <= |v| <= 3
    else if t in {1096, 1153} then |v| % 4 == 0
    else if t == 1154 then |v| % 8 == 0
    else if t == 1156 then |v| == 4 || |v| == 16
    else true
  }

  predicate AllValid(ts: seq<Tlv>, utf8: Utf8) {
    forall t | t in ts :: ValidValue(t.tlvType, t.value, utf8)
  }

  lemma AttrAccepted(t: Tlv, utf8: Utf8)
    ensures ParseAttr(t, utf8).Some? <==> ValidValue(t.tlvType, t.value, utf8)
  {
    hide SplitU32s, SplitU64s;
  }

  // ----- lists -----

  function WriteAttrs(s: seq<Attr>): seq<Tlv> {
    if s == [] then [] else [WriteAttr(s[0])] + WriteAttrs(s[1..])
  }

  function ParseAttrs(ts: seq<Tlv>, utf8: Utf8): Option<seq<Attr>> {
    if ts == [] then Some([])
    else
      var a :- ParseAttr(ts[0], utf8);
      var s :- ParseAttrs(ts[1..], utf8);
      Some([a] + s)
  }

  function NormalAll(s: seq<Attr>): seq<Attr> {
    if s == [] then [] else [Normal(s[0])] + NormalAll(s[1..])
  }

  function ParseLsAttr(data: Bytes, utf8: Utf8): Option<LsAttr> {
    match ParseTlvs(data)
    case Err => None
    case Ok(ts) => var s :- ParseAttrs(ts, utf8); Some(LsAttr(data, s))
  }

  function BuildLsAttr(s: seq<Attr>): LsAttr {
    LsAttr(WriteTlvs(WriteAttrs(s)), s)
  }

  lemma {:induction false} AttrsBack(s: seq<Attr>, utf8: Utf8)
    requires forall a | a in s :: Named(a, utf8)
    ensures ParseAttrs(WriteAttrs(s), utf8) == Some(NormalAll(s)) <==> forall a | a in s :: Writable(a)
  {
    hide WriteAttr, ParseAttr, Normal, Writable, Named;
    if s != [] {
      AttrBack(s[0], utf8);
      AttrsBack(s[1..], utf8);
      assert WriteAttrs(s)[1..] == WriteAttrs(s[1..]);
      assert NormalAll(s)[1..] == NormalAll(s[1..]);
      assert forall a :: a in s <==> a == s[0] || a in s[1..];
      var r := ParseAttrs(WriteAttrs(s), utf8);
      if r == Some(NormalAll(s)) {
        assert r.value[0] == Normal(s[0]) && r.value[1..] == NormalAll(s[1..]);
      }
    }
  }

  // Build then parse gives the list back, local router ids read as the node's, exactly
  // when every TLV is writable.
  lemma LsAttrBack(s: seq<Attr>, utf8: Utf8)
    requires (forall a | a in s :: Named(a, utf8)) && AllFit(WriteAttrs(s))
    ensures var b := BuildLsAttr(s);
      ParseLsAttr(b.raw, utf8) == Some(b.(tlvs := NormalAll(s))) <==> forall a | a in s :: Writable(a)
  {
    hide WriteTlvs, ParseTlvs, WriteAttrs, ParseAttrs, NormalAll, Writable, Named;
    ParseWrittenAlone(WriteAttrs(s));
    AttrsBack(s, utf8);
  }

  lemma {:induction false} AttrsAccepted(ts: seq<Tlv>, utf8: Utf8)
    ensures ParseAttrs(ts, utf8).Some? <==> AllValid(ts, utf8)
  {
    hide ParseAttr, ValidValue;
    if ts != [] {
      AttrAccepted(ts[0], utf8);
      AttrsAccepted(ts[1..], utf8);
      assert forall t :: t in ts <==> t == ts[0] || t in ts[1..];
    }
  }

  // Bytes are accepted exactly when they are the writing of individually valid TLVs.
  lemma LsAttrAccepted(data: Bytes, utf8: Utf8)
    ensures ParseLsAttr(data, utf8).Some? <==>
            exists ts :: AllFit(ts) && data == WriteTlvs(ts) && AllValid(ts, utf8)
  {
    hide ParseTlvs, WriteTlvs, ParseAttrs, ValidValue;
    if ParseLsAttr(data, utf8).Some? {
      var ts := ParseTlvs(data).value;
      WriteParsed(data, ts);
      AttrsAccepted(ts, utf8);
    }
    forall ts | AllFit(ts) && data == WriteTlvs(ts) && AllValid(ts, utf8)
      ensures ParseLsAttr(data, utf8).Some?
    {
      ParseWrittenAlone(ts);
      AttrsAccepted(ts, utf8);
    }
  }

  // ----- re-encoding -----

  // Writing what was read gives the same TLV, unless an IGP metric had leading zeros.
  lemma AttrRewritten(t: Tlv, utf8: Utf8, a: Attr)
    requires ParseAttr(t, utf8) == Some(a)
    ensures WriteAttr(a) == t <==> !(t.tlvType == 1095 && |t.value| > 1 && t.value[0] == 0)
  {
    hide SplitU32s, JoinU32s, SplitU64s, JoinU64s, MetricBytes;
    var v := t.value;
    if t.tlvType in {1088, 1089, 1090, 1092, 1093, 1155} {
      BeNum(v);
    } else if t.tlvType in {1091, 1096, 1153} {
      JoinSplitU32s(v);
    } else if t.tlvType == 1154 {
      JoinSplitU64s(v);
    } else if t.tlvType == 1095 {
      MetricWritten(Num(v));
      if |v| == 1 || v[0] != 0 {
        ShortestUnique(v, MetricBytes(Num(v)));
      }
    }
  }

  // The loop of `parse_attr_tlv_list`.
  method AttrLoop(bytes: Bytes, utf8: Utf8) returns (r: Option<seq<Attr>>)
    ensures r == (match ParseTlvs(bytes) case Err => None case Ok(ts) => ParseAttrs(ts, utf8))
  {
    hide ParseTlvs, ParseAttr;
    var tlvs: seq<Attr> := [];
    var cursor := 0;
    ghost var frames: seq<Tlv> := [];
    assert bytes[0..] == bytes;
    AfterAfter([], [], ParseTlvs(bytes));
    while cursor < |bytes|
      invariant 0 <= cursor <= |bytes|
      invariant ParseAttrs(frames, utf8) == Some(tlvs)
      invariant ParseTlvs(bytes) == After(frames, ParseTlvs(bytes[cursor..]))
    {
      ParseFrame(bytes, cursor);
      if |bytes| - cursor < 4 {
        return None;
      }
      var tlvType := U16(bytes[cursor..cursor + 2]);
      var len := U16(bytes[cursor + 2..cursor + 4]);
      cursor := cursor + 4;
      if cursor + len > |bytes| {
        return None;
      }
      var t := Tlv(tlvType, bytes[cursor..cursor + len]);
      AfterAfter(frames, [t], ParseTlvs(bytes[cursor + len..]));
      AttrsSnoc(frames, t, utf8);
      frames := frames + [t];
      var a := ParseAttr(t, utf8);
      if a.None? {
        if ParseTlvs(bytes[cursor + len..]).Ok? {
          AttrsPrefix(frames, ParseTlvs(bytes[cursor + len..]).value, utf8);
        }
        return None;
      }
      tlvs := tlvs + [a.value];
      cursor := cursor + len;
    }
    NoTlvs();
    assert bytes[cursor..] == [] && frames + [] == frames;
    r := Some(tlvs);
  }

  lemma {:induction false} AttrsSnoc(ts: seq<Tlv>, t: Tlv, utf8: Utf8)
    requires ParseAttrs(ts, utf8).Some?
    ensures ParseAttrs(ts + [t], utf8) ==
            if ParseAttr(t, utf8).Some? then Some(ParseAttrs(ts, utf8).value + [ParseAttr(t, utf8).value]) else None
  {
    hide ParseAttr;
    if ts == [] {
      assert ts + [t] == [t] && [t][1..] == [] && ParseAttrs([], utf8) == Some([]);
      if ParseAttr(t, utf8).Some? {
        var x := ParseAttr(t, utf8).value;
        assert [x] + [] == [] + [x];
      }
    } else {
      assert (ts + [t])[1..] == ts[1..] + [t] && (ts + [t])[0] == ts[0];
      AttrsSnoc(ts[1..], t, utf8);
      if ParseAttr(t, utf8).Some? {
        var a, s, x := ParseAttr(ts[0], utf8).value, ParseAttrs(ts[1..], utf8).value, ParseAttr(t, utf8).value;
        assert [a] + (s + [x]) == [a] + s + [x];
      }
    }
  }

  // A list with an invalid part is invalid.
  lemma {:induction false} AttrsPrefix(ts: seq<Tlv>, us: seq<Tlv>, utf8: Utf8)
    requires ParseAttrs(ts, utf8).None?
    ensures ParseAttrs(ts + us, utf8).None?
  {
    hide ParseAttr;
    assert (ts + us)[1..] == ts[1..] + us;
    if ParseAttr(ts[0], utf8).Some? {
      AttrsPrefix(ts[1..], us, utf8);
    }
  }
}
