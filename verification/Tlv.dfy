// Type-length-value lists (bgpgg/src/bgp/bgpls.rs, bgpls_nlri.rs): framing and canonical order.
module Tlv {
  import opened Bytes
  import opened Decimal
  import opened Wrappers

  datatype Tlv = Tlv(tlvType: u16, value: Bytes)

  // ----- framing -----

  // `write_tlv_raw`: the length field keeps the low 16 bits of the length.
  function WriteTlv(t: Tlv): (b: Bytes)
    ensures |b| == 4 + |t.value|
  {
    Be(t.tlvType, 2) + Be(|t.value| % 0x1_0000, 2) + t.value
  }

  function WriteTlvs(ts: seq<Tlv>): Bytes {
    if ts == [] then [] else WriteTlv(ts[0]) + WriteTlvs(ts[1..])
  }

  function ParseTlvs(b: Bytes): Result<seq<Tlv>> {
    if b == [] then Ok([])
    else if |b| < 4 then Err
    else
      var n := U16(b[2..4]);
      if 4 + n > |b| then Err
      else
        var ts :- ParseTlvs(b[4 + n..]);
        Ok([Tlv(U16(b[..2]), b[4..4 + n])] + ts)
  }

  // A result with more TLVs in front.
  function After(ts: seq<Tlv>, r: Result<seq<Tlv>>): Result<seq<Tlv>> {
    match r
    case Err => Err
    case Ok(us) => Ok(ts + us)
  }

  predicate Fits(t: Tlv) { |t.value| < 0x1_0000 }

  predicate AllFit(ts: seq<Tlv>) { forall t | t in ts :: Fits(t) }

  // Reading one written TLV in front of more bytes.
  lemma TlvAhead(t: Tlv, b: Bytes)
    requires Fits(t)
    ensures ParseTlvs(WriteTlv(t) + b) == After([t], ParseTlvs(b))
  {
    var all := WriteTlv(t) + b;
    assert all[..2] == Be(t.tlvType, 2) && all[2..4] == Be(|t.value|, 2);
    U16Back(t.tlvType);
    U16Back(|t.value|);
    assert all[4..4 + |t.value|] == t.value && all[4 + |t.value|..] == b;
  }

  // Written lists read back, with anything that follows them.
  lemma {:induction false} ParseWritten(ts: seq<Tlv>, b: Bytes)
    requires AllFit(ts)
    ensures ParseTlvs(WriteTlvs(ts) + b) == After(ts, ParseTlvs(b))
  {
    hide ParseTlvs;
    if ts == [] {
      assert WriteTlvs(ts) + b == b;
      if ParseTlvs(b).Ok? {
        assert ts + ParseTlvs(b).value == ParseTlvs(b).value;
      }
    } else {
      var rest := WriteTlvs(ts[1..]) + b;
      assert WriteTlvs(ts) + b == WriteTlv(ts[0]) + rest;
      TlvAhead(ts[0], rest);
      ParseWritten(ts[1..], b);
      if ParseTlvs(b).Ok? {
        assert [ts[0]] + (ts[1..] + ParseTlvs(b).value) == ts + ParseTlvs(b).value;
      }
    }
  }

  lemma ParseWrittenAlone(ts: seq<Tlv>)
    requires AllFit(ts)
    ensures ParseTlvs(WriteTlvs(ts)) == Ok(ts)
  {
    ParseWritten(ts, []);
    assert WriteTlvs(ts) + [] == WriteTlvs(ts) && ts + [] == ts;
  }

  lemma FrameBytes(b: Bytes, n: nat)
    requires 4 + n <= |b| && n == U16(b[2..4])
    ensures var t := Tlv(U16(b[..2]), b[4..4 + n]); Fits(t) && WriteTlv(t) == b[..4 + n]
  {
    hide Be;
    BeNum(b[..2]);
    BeNum(b[2..4]);
    assert b[..2] + b[2..4] + b[4..4 + n] == b[..4 + n];
  }

  // Accepted bytes are the writing of what was read: framing loses nothing.
  lemma {:induction false} WriteParsed(b: Bytes, ts: seq<Tlv>)
    requires ParseTlvs(b) == Ok(ts)
    ensures AllFit(ts) && WriteTlvs(ts) == b
  {
    hide WriteTlv, Fits;
    if b != [] {
      var n := U16(b[2..4]);
      FrameBytes(b, n);
      WriteParsed(b[4 + n..], ts[1..]);
      assert b[..4 + n] + b[4 + n..] == b;
      assert ts == [ts[0]] + ts[1..];
    }
  }

  // Parsing distributes over concatenation of accepted bytes.
  lemma ParseConcat(a: Bytes, ts: seq<Tlv>, b: Bytes)
    requires ParseTlvs(a) == Ok(ts)
    ensures ParseTlvs(a + b) == After(ts, ParseTlvs(b))
  {
    WriteParsed(a, ts);
    ParseWritten(ts, b);
  }

  // One turn of the cursor loop, at any position.
  lemma ParseFrame(b: Bytes, at: nat)
    requires at < |b|
    ensures var rest := b[at..];
      ParseTlvs(rest) ==
        if |rest| < 4 || 4 + U16(b[at + 2..at + 4]) > |rest| then Err
        else
          var end := at + 4 + U16(b[at + 2..at + 4]);
          After([Tlv(U16(b[at..at + 2]), b[at + 4..end])], ParseTlvs(b[end..]))
  {
    var rest := b[at..];
    if |rest| >= 4 {
      var n := U16(b[at + 2..at + 4]);
      assert rest[..2] == b[at..at + 2] && rest[2..4] == b[at + 2..at + 4];
      if 4 + n <= |rest| {
        assert rest[4..4 + n] == b[at + 4..at + 4 + n] && rest[4 + n..] == b[at + 4 + n..];
      }
    }
  }

  lemma AfterAfter(ts: seq<Tlv>, us: seq<Tlv>, r: Result<seq<Tlv>>)
    ensures After(ts, After(us, r)) == After(ts + us, r)
    ensures After([], r) == r
  {
    if r.Ok? {
      assert ts + (us + r.value) == ts + us + r.value && [] + r.value == r.value;
    }
  }

  // The cursor loop of `parse_tlv_list`.
  method ParseTlvLoop(bytes: Bytes) returns (r: Result<seq<Tlv>>)
    ensures r == ParseTlvs(bytes)
  {
    hide ParseTlvs;
    var tlvs: seq<Tlv> := [];
    var cursor := 0;
    assert bytes[0..] == bytes;
    AfterAfter([], [], ParseTlvs(bytes));
    while cursor < |bytes|
      invariant 0 <= cursor <= |bytes|
      invariant ParseTlvs(bytes) == After(tlvs, ParseTlvs(bytes[cursor..]))
    {
      ParseFrame(bytes, cursor);
      if |bytes| - cursor < 4 {
        return Err;
      }
      var tlvType := U16(bytes[cursor..cursor + 2]);
      var len := U16(bytes[cursor + 2..cursor + 4]);
      cursor := cursor + 4;
      if cursor + len > |bytes| {
        return Err;
      }
      var t := Tlv(tlvType, bytes[cursor..cursor + len]);
      AfterAfter(tlvs, [t], ParseTlvs(bytes[cursor + len..]));
      tlvs := tlvs + [t];
      cursor := cursor + len;
    }
    NoTlvs();
    assert bytes[cursor..] == [] && tlvs + [] == tlvs;
    r := Ok(tlvs);
  }

  lemma NoTlvs()
    ensures ParseTlvs([]) == Ok([])
  {
  }

  // ----- canonical order (section 5.1 of RFC 9552) -----

  // `Vec<u8>::cmp`.
  predicate LexLeq(a: Bytes, b: Bytes) {
    a == [] || (b != [] && (a[0] < b[0] || (a[0] == b[0] && LexLeq(a[1..], b[1..]))))
  }

  // By type, then by length, then by value.
  predicate Leq(a: Tlv, b: Tlv) {
    a.tlvType < b.tlvType ||
    (a.tlvType == b.tlvType &&
      (|a.value| < |b.value| || (|a.value| == |b.value| && LexLeq(a.value, b.value))))
  }

  // What the code checks: neighbours only.
  predicate Ordered(ts: seq<Tlv>) {
    forall i | 0 < i < |ts| :: Leq(ts[i - 1], ts[i])
  }

  predicate Sorted(ts: seq<Tlv>) {
    forall i, j | 0 <= i <= j < |ts| :: Leq(ts[i], ts[j])
  }

  lemma {:induction false} LexTotal(a: Bytes, b: Bytes)
    ensures LexLeq(a, b) || LexLeq(b, a)
    ensures LexLeq(a, b) && LexLeq(b, a) ==> a == b
  {
    if a != [] && b != [] && a[0] == b[0] {
      LexTotal(a[1..], b[1..]);
      assert a == [a[0]] + a[1..] && b == [b[0]] + b[1..];
    }
  }

  lemma {:induction false} LexTransitive(a: Bytes, b: Bytes, c: Bytes)
    requires LexLeq(a, b) && LexLeq(b, c)
    ensures LexLeq(a, c)
  {
    if a != [] && a[0] == b[0] == c[0] {
      LexTransitive(a[1..], b[1..], c[1..]);
    }
  }

  // `Leq` is a total order.
  lemma LeqOrder(a: Tlv, b: Tlv, c: Tlv)
    ensures Leq(a, b) || Leq(b, a)
    ensures Leq(a, b) && Leq(b, a) ==> a == b
    ensures Leq(a, b) && Leq(b, c) ==> Leq(a, c)
  {
    hide LexLeq;
    LexTotal(a.value, b.value);
    if LexLeq(a.value, b.value) && LexLeq(b.value, c.value) {
      LexTransitive(a.value, b.value, c.value);
    }
  }

  // Checking neighbours is enough.
  lemma OrderedSorted(ts: seq<Tlv>)
    ensures Ordered(ts) <==> Sorted(ts)
  {
    hide Leq;
    if Ordered(ts) {
      forall i, j | 0 <= i <= j < |ts| ensures Leq(ts[i], ts[j]) {
        OrderedPair(ts, i, j);
      }
    }
  }

  lemma {:induction false} OrderedPair(ts: seq<Tlv>, i: nat, j: nat)
    requires Ordered(ts) && i <= j < |ts|
    ensures Leq(ts[i], ts[j])
    decreases j - i
  {
    hide Leq;
    if i == j {
      LeqOrder(ts[i], ts[i], ts[i]);
    } else {
      OrderedPair(ts, i, j - 1);
      LeqOrder(ts[i], ts[j - 1], ts[j]);
    }
  }

  lemma SameHead(a: seq<Tlv>, b: seq<Tlv>)
    requires Sorted(a) && Sorted(b) && multiset(a) == multiset(b) && a != []
    ensures b != [] && a[0] == b[0]
  {
    hide Leq;
    assert a[0] in multiset(b);
    assert b[0] in multiset(a);
    var i :| 0 <= i < |b| && b[i] == a[0];
    var j :| 0 <= j < |a| && a[j] == b[0];
    assert Leq(b[0], b[i]) && Leq(a[0], a[j]);
    LeqOrder(a[0], b[0], a[0]);
  }

  lemma {:induction false} SortedUnique(a: seq<Tlv>, b: seq<Tlv>)
    requires Sorted(a) && Sorted(b) && multiset(a) == multiset(b)
    ensures a == b
  {
    hide Leq;
    if a == [] {
      assert |multiset(b)| == 0;
    } else {
      SameHead(a, b);
      assert a == [a[0]] + a[1..] && b == [b[0]] + b[1..];
      assert multiset(a[1..]) == multiset(a) - multiset{a[0]};
      assert multiset(b[1..]) == multiset(b) - multiset{b[0]};
      SortedTail(a);
      SortedTail(b);
      SortedUnique(a[1..], b[1..]);
    }
  }

  lemma SortedTail(a: seq<Tlv>)
    requires Sorted(a) && a != []
    ensures Sorted(a[1..])
  {
    hide Leq;
  }

  // Two byte strings that pass framing and ordering and hold the same TLVs are equal.
  lemma CanonicalUnique(a: Bytes, b: Bytes, ts: seq<Tlv>, us: seq<Tlv>)
    requires ParseTlvs(a) == Ok(ts) && ParseTlvs(b) == Ok(us)
    requires Ordered(ts) && Ordered(us) && multiset(ts) == multiset(us)
    ensures a == b
  {
    OrderedSorted(ts);
    OrderedSorted(us);
    SortedUnique(ts, us);
    WriteParsed(a, ts);
    WriteParsed(b, us);
  }

  // The pairwise check of `validate_tlv_ordering`.
  method OrderingLoop(ts: seq<Tlv>) returns (ok: bool)
    ensures ok == Sorted(ts)
  {
    OrderedSorted(ts);
    var i := 1;
    while i < |ts|
      invariant 1 <= i && (i <= |ts| || |ts| == 0)
      invariant forall k | 0 < k < i && k < |ts| :: Leq(ts[k - 1], ts[k])
    {
      if !Leq(ts[i - 1], ts[i]) {
        return false;
      }
      i := i + 1;
    }
    return true;
  }

  // ----- lookup by type -----

  predicate UniqueTypes(ts: seq<Tlv>) {
    forall i, j | 0 <= i < j < |ts| :: ts[i].tlvType != ts[j].tlvType
  }

  // The scan of `validate_unique_tlv`, which remembers the types it has seen.
  method UniqueLoop(ts: seq<Tlv>) returns (ok: bool)
    ensures ok == UniqueTypes(ts)
  {
    var seen: seq<u16> := [];
    for i := 0 to |ts|
      invariant |seen| == i && forall k | 0 <= k < i :: seen[k] == ts[k].tlvType
      invariant UniqueTypes(ts[..i])
    {
      if ts[i].tlvType in seen {
        return false;
      }
      seen := seen + [ts[i].tlvType];
    }
    assert ts[..|ts|] == ts;
    return true;
  }

  // The value of the first TLV of a type.
  function First(ts: seq<Tlv>, t: u16): Option<Bytes> {
    if ts == [] then None else if ts[0].tlvType == t then Some(ts[0].value) else First(ts[1..], t)
  }

  // The TLVs of one type, in order.
  function OfType(ts: seq<Tlv>, t: u16): seq<Tlv> {
    if ts == [] then []
    else (if ts[0].tlvType == t then [ts[0]] else []) + OfType(ts[1..], t)
  }
}
