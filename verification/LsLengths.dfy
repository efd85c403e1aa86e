// Re-encoding what was parsed never needs more bytes (bgpgg/src/bgp/bgpls_nlri.rs), so all
// its lengths fit their fields.
module LsLengths {
  import opened Bytes
  import opened Decimal
  import opened LsDescriptors
  import opened Tlv
  import opened Wrappers

  function Len(ts: seq<Tlv>): nat { |WriteTlvs(ts)| }

  lemma {:induction false} LenConcat(a: seq<Tlv>, b: seq<Tlv>)
    ensures Len(a + b) == Len(a) + Len(b)
  {
    if a == [] {
      assert a + b == b;
    } else {
      LenConcat(a[1..], b);
      assert (a + b)[0] == a[0] && (a + b)[1..] == a[1..] + b;
    }
  }

  lemma LenOne(t: Tlv)
    ensures Len([t]) == 4 + |t.value| && Len([]) == 0
  {
    assert WriteTlvs([t][1..]) == [] by { assert [t][1..] == []; }
    assert WriteTlvs([t]) == WriteTlv(t) + WriteTlvs([t][1..]);
  }

  // Short lists hold short values.
  lemma {:induction false} ShortFits(ts: seq<Tlv>)
    requires Len(ts) < 0x1_0000
    ensures AllFit(ts)
  {
    if ts != [] {
      ShortFits(ts[1..]);
      assert forall t | t in ts :: t == ts[0] || t in ts[1..];
    }
  }

  // ----- node descriptors -----

  function FieldLen(f: Field): nat { if f.value.Some? then 4 + |f.value.value| else 0 }

  lemma FlatStep(f: Field, fs: seq<Field>)
    ensures Len(Flat([f] + fs)) == FieldLen(f) + Len(Flat(fs))
  {
    hide WriteTlvs;
    assert ([f] + fs)[1..] == fs;
    var head := if f.value.Some? then [Tlv(f.t, f.value.value)] else [];
    assert Flat([f] + fs) == head + Flat(fs);
    LenConcat(head, Flat(fs));
    if f.value.Some? { LenOne(Tlv(f.t, f.value.value)); } else { LenOne(Tlv(0, [])); }
  }

  lemma NodeLen(d: NodeDescriptor)
    ensures Len(NodeTlvs(d)) ==
            FieldLen(Field(0, Word(d.asNumber))) + FieldLen(Field(0, Word(d.bgpLsId))) +
            FieldLen(Field(0, Word(d.ospfAreaId))) + FieldLen(Field(0, d.igpRouterId)) + Len(d.unknown)
  {
    hide WriteTlvs, Flat;
    var fs := NodeFields(d);
    LenConcat(Flat(fs), d.unknown);
    FlatStep(fs[0], fs[1..]);
    FlatStep(fs[1], fs[2..]);
    FlatStep(fs[2], fs[3..]);
    FlatStep(fs[3], []);
    assert fs == [fs[0]] + fs[1..] && fs[1..] == [fs[1]] + fs[2..] && fs[2..] == [fs[2]] + fs[3..];
    assert fs[3..] == [fs[3]] + [];
    assert Len(Flat([])) == 0 by { NothingWritten(); }
  }

  lemma NothingWritten()
    ensures Len([]) == 0 && Flat([]) == []
  {
  }

  lemma SubLen(d: NodeDescriptor, t: Tlv, e: NodeDescriptor)
    requires ApplySub(d, t) == Ok(e)
    ensures Len(NodeTlvs(e)) <= Len(NodeTlvs(d)) + 4 + |t.value|
  {
    hide WriteTlvs, NodeTlvs, Be, U32, Len;
    NodeLen(d);
    NodeLen(e);
    LenConcat(d.unknown, [t]);
    LenOne(t);
  }

  lemma {:induction false} SubsLen(d: NodeDescriptor, ts: seq<Tlv>, e: NodeDescriptor)
    requires ApplySubs(d, ts) == Ok(e)
    ensures Len(NodeTlvs(e)) <= Len(NodeTlvs(d)) + Len(ts)
    decreases ts
  {
    hide ApplySub, NodeTlvs;
    if ts != [] {
      var d' := ApplySub(d, ts[0]).value;
      SubLen(d, ts[0], d');
      SubsLen(d', ts[1..], e);
    }
  }

  // A parsed node descriptor is written in no more bytes than it was read from.
  lemma ParsedNodeLen(b: Bytes, d: NodeDescriptor)
    requires ParseNode(b) == Ok(d)
    ensures |NodeBytes(d)| <= |b|
  {
    hide ParseTlvs, ApplySubs, WriteTlvs;
    var ts := ParseTlvs(b).value;
    WriteParsed(b, ts);
    SubsLen(EMPTY_NODE, ts, d);
    NodeLen(EMPTY_NODE);
    NothingWritten();
  }

  // ----- TLVs by type -----

  function NotType(ts: seq<Tlv>, t: u16): seq<Tlv> {
    if ts == [] then [] else (if ts[0].tlvType == t then [] else [ts[0]]) + NotType(ts[1..], t)
  }

  lemma {:induction false} SplitLen(ts: seq<Tlv>, t: u16)
    ensures Len(OfType(ts, t)) + Len(NotType(ts, t)) == Len(ts)
  {
    hide WriteTlvs;
    if ts == [] {
      NothingWritten();
    } else {
      var rest := ts[1..];
      SplitLen(rest, t);
      LenConcat([ts[0]], rest);
      LenConcat([ts[0]], OfType(rest, t));
      LenConcat([ts[0]], NotType(rest, t));
      assert ts == [ts[0]] + rest;
      assert [] + OfType(rest, t) == OfType(rest, t) && [] + NotType(rest, t) == NotType(rest, t);
    }
  }

  lemma {:induction false} OthersStay(ts: seq<Tlv>, t: u16, u: u16)
    requires t != u
    ensures OfType(NotType(ts, t), u) == OfType(ts, u)
  {
    if ts != [] {
      var rest := NotType(ts[1..], t);
      OthersStay(ts[1..], t, u);
      if ts[0].tlvType == t {
        assert NotType(ts, t) == rest;
        assert [] + OfType(ts[1..], u) == OfType(ts[1..], u);
      } else {
        assert NotType(ts, t) == [ts[0]] + rest;
        assert ([ts[0]] + rest)[1..] == rest;
      }
    }
  }

  // The bytes of the TLVs of some types.
  function LenOf(ts: seq<Tlv>, types: seq<u16>): nat {
    if types == [] then 0 else Len(OfType(ts, types[0])) + LenOf(ts, types[1..])
  }

  predicate DistinctTypes(types: seq<u16>) { forall i, j | 0 <= i < j < |types| :: types[i] != types[j] }

  lemma {:induction false} LenOfOthers(ts: seq<Tlv>, t: u16, types: seq<u16>)
    requires t !in types
    ensures LenOf(NotType(ts, t), types) == LenOf(ts, types)
  {
    hide OfType, NotType, WriteTlvs;
    if types != [] {
      OthersStay(ts, t, types[0]);
      LenOfOthers(ts, t, types[1..]);
    }
  }

  lemma {:induction false} LenOfTypes(ts: seq<Tlv>, types: seq<u16>)
    requires DistinctTypes(types)
    ensures LenOf(ts, types) <= Len(ts)
    decreases types
  {
    hide OfType, NotType, WriteTlvs;
    if types != [] {
      var t, rest := types[0], types[1..];
      SplitLen(ts, t);
      LenOfOthers(ts, t, rest);
      LenOfTypes(NotType(ts, t), rest);
    }
  }

  lemma {:induction false} LenOfConcat(ts: seq<Tlv>, a: seq<u16>, b: seq<u16>)
    ensures LenOf(ts, a + b) == LenOf(ts, a) + LenOf(ts, b)
  {
    hide OfType, WriteTlvs;
    if a == [] {
      assert a + b == b;
    } else {
      LenOfConcat(ts, a[1..], b);
      assert (a + b)[1..] == a[1..] + b;
    }
  }

  // ----- known fields and unknown TLVs -----

  // The field was read from the first TLV of its type and is no longer than it.
  predicate Covered(f: Field, ts: seq<Tlv>) {
    f.value.Some? ==> First(ts, f.t).Some? && |f.value.value| <= |First(ts, f.t).value|
  }

  function FieldTypes(fs: seq<Field>): seq<u16> { seq(|fs|, i requires 0 <= i < |fs| => fs[i].t) }

  lemma {:induction false} FirstLen(ts: seq<Tlv>, t: u16)
    ensures First(ts, t).Some? ==> 4 + |First(ts, t).value| <= Len(OfType(ts, t))
  {
    if ts != [] {
      FirstLen(ts[1..], t);
      var rest := OfType(ts[1..], t);
      if ts[0].tlvType == t {
        LenConcat([ts[0]], rest);
        LenOne(ts[0]);
      } else {
        assert [] + rest == rest;
      }
    }
  }

  lemma {:induction false} FieldsLen(fs: seq<Field>, ts: seq<Tlv>)
    requires forall f | f in fs :: Covered(f, ts)
    ensures Len(Flat(fs)) <= LenOf(ts, FieldTypes(fs))
  {
    hide OfType, WriteTlvs, First, Flat;
    if fs == [] {
      NothingWritten();
    } else {
      FieldsLen(fs[1..], ts);
      FlatStep(fs[0], fs[1..]);
      assert fs == [fs[0]] + fs[1..] && fs[0] in fs;
      FirstLen(ts, fs[0].t);
      assert FieldTypes(fs)[1..] == FieldTypes(fs[1..]);
    }
  }

  function UnknownTypes(order: seq<u16>): seq<u16> {
    if order == [] then [] else (if Known(order[0]) then [] else [order[0]]) + UnknownTypes(order[1..])
  }

  lemma {:induction false} UnknownsLen(ts: seq<Tlv>, order: seq<u16>)
    ensures Len(Unknowns(ts, order)) == LenOf(ts, UnknownTypes(order))
  {
    hide OfType, WriteTlvs, Known;
    if order == [] {
      NothingWritten();
    } else {
      var t, rest := order[0], order[1..];
      UnknownsLen(ts, rest);
      if Known(t) {
        assert Unknowns(ts, order) == Unknowns(ts, rest) by { assert [] + Unknowns(ts, rest) == Unknowns(ts, rest); }
        assert UnknownTypes(order) == UnknownTypes(rest) by { assert [] + UnknownTypes(rest) == UnknownTypes(rest); }
      } else {
        assert Unknowns(ts, order) == OfType(ts, t) + Unknowns(ts, rest);
        assert UnknownTypes(order) == [t] + UnknownTypes(rest);
        hide Unknowns, UnknownTypes;
        LenConcat(OfType(ts, t), Unknowns(ts, rest));
        assert ([t] + UnknownTypes(rest))[1..] == UnknownTypes(rest);
      }
    }
  }

  lemma {:induction false} UnknownTypesDistinct(order: seq<u16>)
    requires DistinctTypes(order)
    ensures DistinctTypes(UnknownTypes(order)) && forall t | t in UnknownTypes(order) :: !Known(t) && t in order
  {
    hide Known;
    if order != [] {
      UnknownTypesDistinct(order[1..]);
      assert order[0] !in order[1..];
    }
  }

  lemma {:induction false} SplitU16sLen(b: Bytes)
    requires |b| % 2 == 0
    ensures 2 * |SplitU16s(b)| == |b|
  {
    if b != [] { SplitU16sLen(b[2..]); }
  }

  // ----- whole descriptors -----

  lemma LinkCovered(ts: seq<Tlv>, order: seq<u16>, local: NodeDescriptor, remote: NodeDescriptor, l: LinkDescriptor)
    requires ParseLink(ts, order) == Ok(l)
    requires Covered(Field(LOCAL_NODE, Some(NodeBytes(local))), ts)
    requires Covered(Field(REMOTE_NODE, Some(NodeBytes(remote))), ts)
    ensures forall f | f in LinkFields(local, remote, l) :: Covered(f, ts)
  {
    hide First, Unknowns, NodeBytes, SplitU16s, JoinU16s, U32, Be;
    var mt := First(ts, MULTI_TOPOLOGY);
    if mt.Some? { SplitU16sLen(mt.value); }
  }

  lemma PrefixCovered(ts: seq<Tlv>, order: seq<u16>, local: NodeDescriptor, p: PrefixDescriptor)
    requires ParsePrefix(ts, order) == Ok(p)
    requires Covered(Field(LOCAL_NODE, Some(NodeBytes(local))), ts)
    ensures forall f | f in PrefixFields(local, p) :: Covered(f, ts)
  {
    hide First, Unknowns, NodeBytes, SplitU16s, JoinU16s;
    var mt := First(ts, MULTI_TOPOLOGY);
    if mt.Some? { SplitU16sLen(mt.value); }
  }

  lemma ParsedCovered(kind: Kind, b: Bytes, order: Order, d: Descriptors)
    requires ParseDescriptors(kind, b, order) == Ok(d)
    ensures forall f | f in Fields(d) :: Covered(f, ParseTlvs(b).value)
    ensures !d.Node? ==> Unknown(d) == Unknowns(ParseTlvs(b).value, order(ParseTlvs(b).value))
  {
    hide ParseTlvs, First, ParseNode, Unknowns, NodeBytes, SplitU16s, Ordered, JoinU16s;
    var ts := ParseTlvs(b).value;
    ParsedNodeLen(First(ts, LOCAL_NODE).value, d.local);
    match d {
      case Node(_) =>
      case Link(local, remote, l) =>
        ParsedNodeLen(First(ts, REMOTE_NODE).value, remote);
        LinkCovered(ts, order(ts), local, remote, l);
      case PrefixV4(local, p) => PrefixCovered(ts, order(ts), local, p);
      case PrefixV6(local, p) => PrefixCovered(ts, order(ts), local, p);
    }
  }

  // Parsed descriptors are written in no more bytes than they were read from.
  lemma ParsedLen(kind: Kind, b: Bytes, order: Order, d: Descriptors)
    requires IterationOrder(order) && ParseDescriptors(kind, b, order) == Ok(d)
    ensures Len(DescriptorTlvs(d)) <= |b|
  {
    hide ParseTlvs, WriteTlvs, Flat, Fields, First, ParseDescriptors, Unknowns, Covered, LenOf, UnknownTypes,
      FieldTypes, Known;
    Parsed(kind, b, order);
    var ts := ParseTlvs(b).value;
    WriteParsed(b, ts);
    ParsedCovered(kind, b, order, d);
    FieldsLen(Fields(d), ts);
    LenConcat(Flat(Fields(d)), Unknown(d));
    var known, unknown := FieldTypes(Fields(d)), if d.Node? then [] else UnknownTypes(order(ts));
    if d.Node? {
      NothingWritten();
      assert LenOf(ts, []) == 0 by { NoTypes(ts); }
    } else {
      UnknownsLen(ts, order(ts));
      UnknownTypesDistinct(order(ts));
    }
    LenOfConcat(ts, known, unknown);
    TypesApart(d, unknown);
    LenOfTypes(ts, known + unknown);
  }

  lemma Parsed(kind: Kind, b: Bytes, order: Order)
    requires ParseDescriptors(kind, b, order).Ok?
    ensures ParseTlvs(b).Ok?
  {
  }

  lemma NoTypes(ts: seq<Tlv>)
    ensures LenOf(ts, []) == 0
  {
  }

  lemma TypesApart(d: Descriptors, unknown: seq<u16>)
    requires DistinctTypes(unknown) && forall t | t in unknown :: !Known(t)
    ensures DistinctTypes(FieldTypes(Fields(d)) + unknown)
  {
    hide Fields;
    FieldsAscend(d);
    var fs, known := Fields(d), FieldTypes(Fields(d));
    forall i | 0 <= i < |known| ensures Known(known[i]) { assert fs[i] in fs; }
    var all := known + unknown;
    forall i, j | 0 <= i < j < |all| ensures all[i] != all[j] {
      if i < |known| <= j {
        assert all[j] == unknown[j - |known|] && unknown[j - |known|] in unknown;
      } else if |known| <= i {
        assert all[i] == unknown[i - |known|] && all[j] == unknown[j - |known|];
      }
    }
  }

  // So they fit, whatever was accepted from an NLRI of 16-bit length.
  lemma ParsedFits(kind: Kind, b: Bytes, order: Order, d: Descriptors)
    requires IterationOrder(order) && ParseDescriptors(kind, b, order) == Ok(d) && |b| < 0x1_0000
    ensures DescriptorsFit(d)
  {
    hide ParseTlvs, WriteTlvs, Flat, Fields, First, ParseNode, ParseLink, ParsePrefix, Unknowns, NodeTlvs, AllFit,
      Ordered, DescriptorTlvs, Covered;
    ParsedLen(kind, b, order, d);
    ShortFits(DescriptorTlvs(d));
    var ts := ParseTlvs(b).value;
    WriteParsed(b, ts);
    FirstFits(ts, LOCAL_NODE);
    FirstFits(ts, REMOTE_NODE);
    ParsedNodeLen(First(ts, LOCAL_NODE).value, d.local);
    ShortFits(NodeTlvs(d.local));
    if d.Link? {
      ParsedNodeLen(First(ts, REMOTE_NODE).value, d.remote);
      ShortFits(NodeTlvs(d.remote));
    }
  }

  lemma {:induction false} FirstFits(ts: seq<Tlv>, t: u16)
    requires AllFit(ts)
    ensures First(ts, t).Some? ==> |First(ts, t).value| < 0x1_0000
  {
    if ts != [] {
      FirstFits(ts[1..], t);
      assert ts[0] in ts;
    }
  }
}
