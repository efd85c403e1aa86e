// What survives whatever order a hash map is iterated in (bgpgg/src/bgp/bgpls_nlri.rs):
// exact conditions on the descriptors alone.
module LsOrders {
  import opened Bytes
  import opened Decimal
  import opened LsDescriptors
  import opened LsLengths
  import opened LsNlri
  import opened Tlv
  import opened Wrappers

  // ----- an iteration order that lists the last type first -----

  function LastFirst(ts: seq<Tlv>): seq<u16> {
    if ts == [] then []
    else
      var rest := LastFirst(ts[1..]);
      if ts[0].tlvType in rest then rest else rest + [ts[0].tlvType]
  }

  lemma {:induction false} LastFirstLists(ts: seq<Tlv>)
    ensures forall i, j | 0 <= i < j < |LastFirst(ts)| :: LastFirst(ts)[i] != LastFirst(ts)[j]
    ensures forall t :: t in LastFirst(ts) <==> !NoType(ts, t)
    ensures ts != [] ==> LastFirst(ts) != [] && LastFirst(ts)[0] == ts[|ts| - 1].tlvType
  {
    if ts != [] {
      LastFirstLists(ts[1..]);
      assert ts == [ts[0]] + ts[1..];
      forall t ensures t in LastFirst(ts) <==> !NoType(ts, t) {
        assert NoType(ts, t) <==> ts[0].tlvType != t && NoType(ts[1..], t);
      }
    }
  }

  // Hash maps may well be iterated like this.
  lemma LastFirstIterates()
    ensures IterationOrder(LastFirst)
  {
    forall ts: seq<Tlv>
      ensures (forall i, j | 0 <= i < j < |LastFirst(ts)| :: LastFirst(ts)[i] != LastFirst(ts)[j])
              && (forall t :: t in LastFirst(ts) <==> !NoType(ts, t))
    {
      LastFirstLists(ts);
    }
  }

  // ----- one unknown type -----

  predicate OneType(us: seq<Tlv>) {
    forall u, v | u in us && v in us :: u.tlvType == v.tlvType
  }

  // The last type comes first, so an order that is kept has no other.
  lemma KeptHasOneType(d: Descriptors)
    requires Form(d) && Regrouped(d, LastFirst)
    ensures OneType(Unknown(d))
  {
    hide Flat, Fields, NodeForm, Leq, LastFirst;
    var us, ts := Unknown(d), DescriptorTlvs(d);
    if us != [] {
      var t := us[|us| - 1].tlvType;
      LastFirstLists(ts);
      assert ts[|ts| - 1] == us[|us| - 1];
      FirstUnknown(us, LastFirst(ts), t);
      OrderedSorted(us);
      forall u | u in us ensures u.tlvType == t {
        var i :| 0 <= i < |us| && us[i] == u;
        if i > 0 { LeqTypes(us[0], us[i]); }
        if i < |us| - 1 { LeqTypes(us[i], us[|us| - 1]); }
      }
    }
  }

  lemma FirstUnknown(us: seq<Tlv>, order: seq<u16>, t: u16)
    requires order != [] && order[0] == t && !Known(t) && !NoType(us, t)
    ensures Unknowns(us, order) != [] && Unknowns(us, order)[0].tlvType == t
  {
    hide Known;
    var u :| u in us && u.tlvType == t;
    CountOfType(us, t, u);
    var first := OfType(us, t);
    assert u in first;
    OfTypeMember(us, t, first[0]);
  }

  lemma OneTypeKept(d: Descriptors, order: Order)
    requires Form(d) && IterationOrder(order) && OneType(Unknown(d))
    ensures Regrouped(d, order)
  {
    hide Flat, Fields, NodeForm, Leq, IterationOrder, Regrouped, Ordered, Unknown;
    if Unknown(d) == [] {
      OneTypeRegroups(d, 0, order);
    } else {
      OneTypeRegroups(d, Unknown(d)[0].tlvType, order);
    }
  }

  // Whatever the order, the unknown TLVs stay as they are exactly when they have one type.
  lemma AlwaysRegrouped(d: Descriptors)
    requires Form(d)
    ensures (forall order | IterationOrder(order) :: Regrouped(d, order)) <==> OneType(Unknown(d))
  {
    hide Form, Regrouped, IterationOrder, OneType, LastFirst;
    if OneType(Unknown(d)) {
      forall order | IterationOrder(order) ensures Regrouped(d, order) { OneTypeKept(d, order); }
    } else if forall order | IterationOrder(order) :: Regrouped(d, order) {
      LastFirstIterates();
      KeptHasOneType(d);
    }
  }

  // ----- the round trip, whatever the order -----

  ghost predicate AlwaysBack(n: Nlri) {
    forall order | IterationOrder(order) :: ParseList(WriteList([n]), n.rd.Some?, order) == Ok([n])
  }

  // Build, write and parse returns the NLRI under every iteration order if and only if its
  // descriptors have the wire form and their unknown TLVs one type.
  lemma BuiltAlwaysBack(protocolId: u8, identifier: u64, d: Descriptors, rd: Option<Rd>)
    requires DescriptorsFit(d) && Fits(Frame(Build(protocolId, identifier, d, rd)))
    ensures AlwaysBack(Build(protocolId, identifier, d, rd)) <==> Form(d) && OneType(Unknown(d))
  {
    hide ParseList, WriteList, EncodeBody, DescriptorsFit, Form, Regrouped, IterationOrder, OneType, Frame;
    var n := Build(protocolId, identifier, d, rd);
    forall order
      ensures ParseList(WriteList([n]), rd.Some?, order) == Ok([n]) <==> Form(d) && Regrouped(d, order)
    {
      BuiltBack(protocolId, identifier, d, rd, order);
    }
    if Form(d) {
      AlwaysRegrouped(d);
    } else {
      LastFirstIterates();
    }
  }

  // ----- two unknown types, an input that fails -----

  const LOW := Tlv(1000, [])
  const HIGH := Tlv(1001, [])
  const TWO_TYPES := PrefixV4(EMPTY_NODE, PrefixDescriptor(None, None, None, [LOW, HIGH]))

  lemma TwoTypesTlvs()
    ensures NodeTlvs(EMPTY_NODE) == [] && NodeBytes(EMPTY_NODE) == []
    ensures DescriptorTlvs(TWO_TYPES) == [Tlv(LOCAL_NODE, []), LOW, HIGH]
  {
    FlatNothing(NodeFields(EMPTY_NODE));
    assert NodeTlvs(EMPTY_NODE) == [];
    var fs := Fields(TWO_TYPES);
    FlatNothing(fs[1..]);
    assert Flat(fs) == [Tlv(LOCAL_NODE, NodeBytes(EMPTY_NODE))];
  }

  lemma {:induction false} FlatNothing(fs: seq<Field>)
    requires forall f | f in fs :: f.value.None?
    ensures Flat(fs) == []
  {
    if fs != [] {
      FlatNothing(fs[1..]);
    }
  }

  lemma TwoTypesForm()
    ensures DescriptorsFit(TWO_TYPES) && Form(TWO_TYPES)
  {
    hide Flat, Fields, NodeTlvs, DescriptorTlvs;
    TwoTypesTlvs();
  }

  // They come back swapped when the hash map lists the second one first.
  lemma TwoTypesExample()
    ensures IterationOrder(LastFirst)
    ensures ParseDescriptors(PrefixV4Kind, WriteTlvs(DescriptorTlvs(TWO_TYPES)), LastFirst) ==
            Ok(WithUnknown(TWO_TYPES, [HIGH, LOW]))
  {
    hide ParseDescriptors, WriteTlvs, DescriptorTlvs, Form, DescriptorsFit, IterationOrder;
    LastFirstIterates();
    TwoTypesForm();
    TwoTypesTlvs();
    DescriptorsRead(TWO_TYPES, LastFirst);
    TwoTypesSwapped();
  }

  lemma TwoTypesSwapped()
    ensures Unknowns([LOW, HIGH], LastFirst([Tlv(LOCAL_NODE, []), LOW, HIGH])) == [HIGH, LOW]
  {
    assert LastFirst([HIGH]) == [1001] by { assert [HIGH][1..] == []; }
    assert LastFirst([LOW, HIGH]) == [1001, 1000] by { assert [LOW, HIGH][1..] == [HIGH]; }
    var ts := [Tlv(LOCAL_NODE, []), LOW, HIGH];
    assert LastFirst(ts) == [1001, 1000, LOCAL_NODE] by { assert ts[1..] == [LOW, HIGH]; }
    hide LastFirst;
    var us := [LOW, HIGH];
    assert us[1..] == [HIGH] && [HIGH][1..] == [];
    assert OfType([HIGH], 1001) == [HIGH] && OfType([HIGH], 1000) == [];
    assert OfType(us, 1001) == [HIGH] && OfType(us, 1000) == [LOW];
    var a := [1001, 1000, LOCAL_NODE];
    assert a[1..] == [1000, LOCAL_NODE] && a[1..][1..] == [LOCAL_NODE] && a[1..][1..][1..] == [];
    assert Unknowns(us, a[1..][1..]) == [];
    assert Unknowns(us, a[1..]) == [LOW];
  }

  // ----- parsed NLRI with a new identifier -----

  predicate Apart(us: seq<Tlv>, ts: seq<Tlv>) {
    forall u, t | u in us && t in ts :: u.tlvType != t.tlvType
  }

  lemma ParsedSub(d: NodeDescriptor, ts: seq<Tlv>, e: NodeDescriptor)
    requires ts != [] && ApplySub(d, ts[0]) == Ok(e) && UniqueTypes(ts) && NodeForm(d) && Apart(d.unknown, ts)
    ensures NodeForm(e) && Apart(e.unknown, ts[1..]) && UniqueTypes(ts[1..])
  {
    hide NodeField;
    assert ts[0] in ts && forall t | t in ts[1..] :: t in ts;
    assert forall t | t in ts[1..] :: t.tlvType != ts[0].tlvType;
    assert e.unknown == d.unknown || (e.unknown == d.unknown + [ts[0]] && !NodeField(ts[0].tlvType)) by {
      UnknownGrows(d, ts[0], e);
    }
  }

  lemma UnknownGrows(d: NodeDescriptor, t: Tlv, e: NodeDescriptor)
    requires ApplySub(d, t) == Ok(e)
    ensures e.unknown == d.unknown || (e.unknown == d.unknown + [t] && !NodeField(t.tlvType))
  {
  }

  lemma {:induction false} ParsedSubs(d: NodeDescriptor, ts: seq<Tlv>, e: NodeDescriptor)
    requires ApplySubs(d, ts) == Ok(e) && UniqueTypes(ts) && NodeForm(d) && Apart(d.unknown, ts)
    ensures NodeForm(e)
    decreases ts
  {
    hide ApplySub, UniqueTypes, NodeForm, Apart;
    if ts != [] {
      ParsedSub(d, ts, ApplySub(d, ts[0]).value);
      ParsedSubs(ApplySub(d, ts[0]).value, ts[1..], e);
    }
  }

  // A parsed node descriptor always has the form.
  lemma ParsedNode(b: Bytes, d: NodeDescriptor)
    requires ParseNode(b) == Ok(d)
    ensures NodeForm(d)
  {
    hide ParseTlvs, ApplySubs;
    ParsedSubs(EMPTY_NODE, ParseTlvs(b).value, d);
  }

  lemma {:induction false} OfTypeSorted(ts: seq<Tlv>, t: u16)
    requires Sorted(ts)
    ensures Sorted(OfType(ts, t))
  {
    hide Leq;
    if ts != [] {
      OfTypeSorted(ts[1..], t);
      var rest := OfType(ts[1..], t);
      forall x | x in rest ensures Leq(ts[0], x) {
        OfTypeMember(ts[1..], t, x);
        var i :| 0 <= i < |ts[1..]| && ts[1..][i] == x;
        assert Leq(ts[0], ts[i + 1]);
      }
      assert Leq(ts[0], ts[0]);
    }
  }

  lemma {:induction false} UnknownsOfOneType(ts: seq<Tlv>, order: seq<u16>, t: u16)
    requires !Known(t) && forall i, j | 0 <= i < j < |order| :: order[i] != order[j]
    requires forall x | x in Unknowns(ts, order) :: x.tlvType == t
    ensures Unknowns(ts, order) == if t in order then OfType(ts, t) else []
  {
    if order != [] {
      var head := if Known(order[0]) then [] else OfType(ts, order[0]);
      var rest := Unknowns(ts, order[1..]);
      assert Unknowns(ts, order) == head + rest;
      hide Known, Unknowns, OfType;
      assert forall x | x in rest :: x in head + rest;
      UnknownsOfOneType(ts, order[1..], t);
      assert order == [order[0]] + order[1..];
      if order[0] == t {
        assert t !in order[1..];
        assert head + [] == head;
      } else {
        assert head == [] by { NoOther(ts, order[0], t, head, rest); }
        assert [] + rest == rest;
      }
    }
  }

  lemma NoOther(ts: seq<Tlv>, other: u16, t: u16, head: seq<Tlv>, rest: seq<Tlv>)
    requires other != t && (head == [] || head == OfType(ts, other))
    requires forall x | x in head + rest :: x.tlvType == t
    ensures head == []
  {
    if head != [] {
      assert head[0] in head + rest;
      OfTypeMember(ts, other, head[0]);
    }
  }

  // What was parsed has the form but for unknown types below the known ones.
  lemma ParsedForm(kind: Kind, b: Bytes, order: Order, d: Descriptors)
    requires IterationOrder(order) && ParseDescriptors(kind, b, order) == Ok(d) && OneType(Unknown(d))
    ensures KindOf(d) == kind
    ensures Form(d) <==> forall u | u in Unknown(d) :: u.tlvType > IP_REACHABILITY
  {
    hide ParseTlvs, Flat, Fields, First, ParseNode, ParseLink, ParsePrefix, Unknowns, NodeForm, Leq, SplitU16s, Known;
    var ts := ParseTlvs(b).value;
    ParsedNode(First(ts, LOCAL_NODE).value, d.local);
    if d.Link? {
      ParsedNode(First(ts, REMOTE_NODE).value, d.remote);
      LinkIdsPaired(ts, order(ts), d.link);
    }
    if !d.Node? {
      assert Unknown(d) == Unknowns(ts, order(ts)) by { ParsedUnknowns(kind, b, order, d); }
      UnknownsAreUnknown(ts, order(ts));
      if Unknown(d) != [] {
        var t := Unknown(d)[0].tlvType;
        UnknownsOfOneType(ts, order(ts), t);
        OrderedSorted(ts);
        OfTypeSorted(ts, t);
        OrderedSorted(Unknown(d));
      }
    }
  }

  lemma ParsedUnknowns(kind: Kind, b: Bytes, order: Order, d: Descriptors)
    requires ParseDescriptors(kind, b, order) == Ok(d) && !d.Node?
    ensures var ts := ParseTlvs(b).value; Unknown(d) == Unknowns(ts, order(ts))
  {
    hide ParseTlvs, First, ParseNode, Unknowns, SplitU16s, Ordered;
  }

  // Rewriting the identifier of a parsed NLRI never makes it longer.
  lemma ReidentifiedFits(n: Nlri, identifier: u64, order: Order)
    requires IterationOrder(order) && Faithful(n, n.rd.Some?, order) && n.body.Some? && Fits(Frame(n))
    ensures DescriptorsFit(n.body.value.descriptors) && Fits(Frame(SetIdentifier(n, identifier)))
  {
    hide ParseDescriptors, DescriptorsFit, IterationOrder, U64, WriteTlvs, DescriptorTlvs, Be;
    var d, kind, b := n.body.value.descriptors, KindOfType(n.nlriType).value, n.raw[BODY_HEADER_LEN..];
    assert ParseDescriptors(kind, b, order) == Ok(d);
    ParsedLen(kind, b, order, d);
    ParsedFits(kind, b, order, d);
    assert |SetIdentifier(n, identifier).raw| == BODY_HEADER_LEN + Len(DescriptorTlvs(d)) <= |n.raw|;
  }

  // A parsed NLRI that is given a new identifier is read back under every iteration order if
  // and only if its unknown TLVs have one type, above the known ones.
  lemma ReidentifiedBack(n: Nlri, identifier: u64, order: Order)
    requires IterationOrder(order) && Faithful(n, n.rd.Some?, order) && n.body.Some? && Fits(Frame(n))
    ensures var us := Unknown(n.body.value.descriptors);
      AlwaysBack(SetIdentifier(n, identifier)) <==> OneType(us) && forall u | u in us :: u.tlvType > IP_REACHABILITY
  {
    hide ParseDescriptors, EncodeBody, DescriptorsFit, Form, IterationOrder, OneType, Fits, Frame, AlwaysBack, U64;
    var b := n.body.value;
    var kind := KindOfType(n.nlriType).value;
    ReidentifiedFits(n, identifier, order);
    assert ParseDescriptors(kind, n.raw[BODY_HEADER_LEN..], order) == Ok(b.descriptors);
    assert KindOf(b.descriptors) == kind by { ParsedKind(kind, n.raw[BODY_HEADER_LEN..], order, b.descriptors); }
    assert SetIdentifier(n, identifier) == Build(b.protocolId, identifier, b.descriptors, n.rd);
    BuiltAlwaysBack(b.protocolId, identifier, b.descriptors, n.rd);
    if OneType(Unknown(b.descriptors)) {
      ParsedForm(kind, n.raw[BODY_HEADER_LEN..], order, b.descriptors);
    }
  }

  lemma ParsedKind(kind: Kind, b: Bytes, order: Order, d: Descriptors)
    requires ParseDescriptors(kind, b, order) == Ok(d)
    ensures KindOf(d) == kind
  {
    hide ParseTlvs, First, ParseNode, ParseLink, ParsePrefix, Ordered;
  }

  // ----- an unknown type below the known ones, an input that fails -----

  const BELOW := Tlv(100, [])
  const LOW_TYPE := PrefixV4(EMPTY_NODE, PrefixDescriptor(None, None, None, [BELOW]))

  lemma LowTypeTlvs()
    ensures DescriptorTlvs(LOW_TYPE) == [Tlv(LOCAL_NODE, []), BELOW] && ParseNode([]) == Ok(EMPTY_NODE)
  {
    TwoTypesTlvs();
    var fs := Fields(LOW_TYPE);
    FlatNothing(fs[1..]);
    assert Flat(fs) == [Tlv(LOCAL_NODE, NodeBytes(EMPTY_NODE))];
  }

  lemma OnlyBelow(ts: seq<Tlv>, order: seq<u16>)
    requires ts == [BELOW, Tlv(LOCAL_NODE, [])] && DistinctTypes(order) && 100 in order
    ensures Unknowns(ts, order) == [BELOW]
  {
    hide Unknowns;
    UnknownsAreUnknown(ts, order);
    UnknownsOfOneType(ts, order, 100);
    assert ts[1..] == [Tlv(LOCAL_NODE, [])] && ts[1..][1..] == [];
    assert OfType(ts[1..], 100) == [];
  }

  // It is accepted in front, but written after them and then refused.
  lemma LowTypeExample(order: Order)
    requires IterationOrder(order)
    ensures ParseDescriptors(PrefixV4Kind, WriteTlvs([BELOW, Tlv(LOCAL_NODE, [])]), order) == Ok(LOW_TYPE)
    ensures ParseDescriptors(PrefixV4Kind, WriteTlvs(DescriptorTlvs(LOW_TYPE)), order) == Err
  {
    hide ParseTlvs, WriteTlvs, DescriptorTlvs, ParseNode, Unknowns;
    var ts := [BELOW, Tlv(LOCAL_NODE, [])];
    LowTypeTlvs();
    ParseWrittenAlone(ts);
    ParseWrittenAlone([Tlv(LOCAL_NODE, []), BELOW]);
    assert BELOW in ts && !NoType(ts, 100);
    OnlyBelow(ts, order(ts));
    assert First(ts, LOCAL_NODE) == Some([]) by { assert ts[1..][0] == Tlv(LOCAL_NODE, []); }
    FirstAbsent(ts, MULTI_TOPOLOGY);
    FirstAbsent(ts, OSPF_ROUTE_TYPE);
    FirstAbsent(ts, IP_REACHABILITY);
    var us := [Tlv(LOCAL_NODE, []), BELOW];
    assert !Leq(us[0], us[1]);
    assert !Ordered(us);
  }
}
