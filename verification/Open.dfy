// The OPEN message and its optional parameters (bgpgg/src/bgp/msg_open.rs, msg_open_types.rs;
// section 4.2 of RFC 4271, section 4 of RFC 5492, section 3 of RFC 6793).
module Open {
  import opened Bytes
  import opened Decimal
  import opened Wrappers

  const BGP_VERSION: u8 := 4
  const AS_TRANS: u16 := 23456
  const CAPABILITIES: u8 := 2

  datatype Code = Multiprotocol | RouteRefresh | GracefulRestart | FourOctetAsn | AddPath | EnhancedRouteRefresh |
    Llgr | UnknownCode

  function CodeOf(v: u8): Code {
    match v
    case 1 => Multiprotocol
    case 2 => RouteRefresh
    case 64 => GracefulRestart
    case 65 => FourOctetAsn
    case 69 => AddPath
    case 70 => EnhancedRouteRefresh
    case 71 => Llgr
    case _ => UnknownCode
  }

  // Unknown codes are not remembered.
  function CodeByte(c: Code): u8 {
    match c
    case Multiprotocol => 1
    case RouteRefresh => 2
    case GracefulRestart => 64
    case FourOctetAsn => 65
    case AddPath => 69
    case EnhancedRouteRefresh => 70
    case Llgr => 71
    case UnknownCode => 0
  }

  datatype Capability = Capability(code: Code, len: u8, val: Bytes)

  datatype ParamType = CapabilitiesParam | UnknownParam(value: u8)
  datatype ParamValue = Capabilities(caps: seq<Capability>) | Raw(data: Bytes)
  datatype OptionalParam = OptionalParam(paramType: ParamType, len: u8, value: ParamValue)

  datatype OpenMessage = OpenMessage(
    version: u8,
    asn: u32,
    holdTime: u16,
    bgpIdentifier: u32,
    optionalParamsLen: u8,
    optionalParams: seq<OptionalParam>)

  // ----- writing -----

  function CapabilityBytes(c: Capability): Bytes { [CodeByte(c.code), c.len] + c.val }

  function CapabilitiesBytes(cs: seq<Capability>): Bytes {
    if cs == [] then [] else CapabilityBytes(cs[0]) + CapabilitiesBytes(cs[1..])
  }

  function ValueBytes(v: ParamValue): Bytes {
    match v
    case Capabilities(cs) => CapabilitiesBytes(cs)
    case Raw(d) => d
  }

  function TypeByte(t: ParamType): u8 {
    match t
    case CapabilitiesParam => CAPABILITIES
    case UnknownParam(v) => v
  }

  function ParamBytes(p: OptionalParam): Bytes { [TypeByte(p.paramType), p.len] + ValueBytes(p.value) }

  function ParamsBytes(ps: seq<OptionalParam>): Bytes {
    if ps == [] then [] else ParamBytes(ps[0]) + ParamsBytes(ps[1..])
  }

  function AsnField(asn: u32): u16 { if asn > 65535 then AS_TRANS else asn }

  function Encode(m: OpenMessage): Bytes {
    [m.version] + Be(AsnField(m.asn), 2) + Be(m.holdTime, 2) + Be(m.bgpIdentifier, 4) + [m.optionalParamsLen]
    + ParamsBytes(m.optionalParams)
  }

  // ----- reading -----

  function ParseCapabilities(b: Bytes): Result<seq<Capability>> {
    if b == [] then Ok([])
    else if |b| < 2 || 2 + b[1] > |b| then Err
    else
      var cs :- ParseCapabilities(b[2 + b[1]..]);
      Ok([Capability(CodeOf(b[0]), b[1], b[2..2 + b[1]])] + cs)
  }

  function ParseParams(b: Bytes): Result<seq<OptionalParam>> {
    if b == [] then Ok([])
    else if |b| < 2 || 2 + b[1] > |b| then Err
    else
      var v :- ParseValue(b[0], b[2..2 + b[1]]);
      var ps :- ParseParams(b[2 + b[1]..]);
      Ok([OptionalParam(TypeOf(b[0]), b[1], v)] + ps)
  }

  function TypeOf(t: u8): ParamType { if t == CAPABILITIES then CapabilitiesParam else UnknownParam(t) }

  function ParseValue(t: u8, b: Bytes): Result<ParamValue> {
    if t == CAPABILITIES then
      var cs :- ParseCapabilities(b);
      Ok(Capabilities(cs))
    else Ok(Raw(b))
  }

  function FourOctetValue(c: Capability): Option<u32> {
    if c.code == FourOctetAsn && |c.val| == 4 then Some(U32(c.val)) else None
  }

  function FirstAsn(cs: seq<Capability>): Option<u32> {
    if cs == [] then None
    else if FourOctetValue(cs[0]).Some? then FourOctetValue(cs[0]) else FirstAsn(cs[1..])
  }

  function FindFourOctetAsn(ps: seq<OptionalParam>): Option<u32> {
    if ps == [] then None
    else
      var here := if ps[0].value.Capabilities? then FirstAsn(ps[0].value.caps) else None;
      if here.Some? then here else FindFourOctetAsn(ps[1..])
  }

  // `from_bytes`. The number of bytes after the header is compared modulo 256.
  function Decode(b: Bytes): Result<OpenMessage> {
    if |b| < 10 || b[9] != (|b| - 10) % 256 then Err
    else
      var asn, hold, id := U16(b[1..3]), U16(b[3..5]), U32(b[5..9]);
      if b[0] != BGP_VERSION || hold == 1 || hold == 2 || id == 0 then Err
      else
        var ps :- ParseParams(b[10..10 + b[9]]);
        if asn == AS_TRANS && FindFourOctetAsn(ps).None? then Err
        else
          var full: u32 := if asn == AS_TRANS then FindFourOctetAsn(ps).value else asn;
          Ok(OpenMessage(b[0], full, hold, id, b[9], ps))
  }

  // ----- parameters come back -----

  predicate CapabilityForm(c: Capability) { c.len == |c.val| }

  predicate CapabilitiesForm(cs: seq<Capability>) { forall c | c in cs :: CapabilityForm(c) }

  // Lengths say what is there, and the type says what the value is.
  predicate ParamForm(p: OptionalParam) {
    && p.len == |ValueBytes(p.value)|
    && (p.paramType.CapabilitiesParam? <==> p.value.Capabilities?)
    && (p.paramType.UnknownParam? ==> p.paramType.value != CAPABILITIES)
    && (p.value.Capabilities? ==> CapabilitiesForm(p.value.caps))
  }

  predicate ParamsForm(ps: seq<OptionalParam>) { forall p | p in ps :: ParamForm(p) }

  // A tag, a length, a value, and what follows.
  lemma Piece(tag: u8, len: u8, value: Bytes, rest: Bytes)
    requires len == |value|
    ensures var b := [tag, len] + value + rest;
      |b| >= 2 + len && b[0] == tag && b[1] == len && b[2..2 + len] == value && b[2 + len..] == rest
  {
  }

  lemma CapabilityAhead(c: Capability, rest: Bytes)
    requires CapabilityForm(c)
    ensures ParseCapabilities(CapabilityBytes(c) + rest) == AfterCaps([c], ParseCapabilities(rest))
  {
    assert CodeOf(CodeByte(c.code)) == c.code;
    hide CodeOf, CodeByte;
    Piece(CodeByte(c.code), c.len, c.val, rest);
  }

  lemma {:induction false} CapabilitiesBack(cs: seq<Capability>)
    requires CapabilitiesForm(cs)
    ensures ParseCapabilities(CapabilitiesBytes(cs)) == Ok(cs)
  {
    hide CapabilityBytes, CapabilityForm;
    if cs != [] {
      CapabilitiesBack(cs[1..]);
      CapabilityAhead(cs[0], CapabilitiesBytes(cs[1..]));
      assert cs == [cs[0]] + cs[1..];
    }
  }

  lemma ValueBack(p: OptionalParam)
    requires ParamForm(p)
    ensures TypeOf(TypeByte(p.paramType)) == p.paramType
    ensures ParseValue(TypeByte(p.paramType), ValueBytes(p.value)) == Ok(p.value)
  {
    hide ParseCapabilities, CapabilitiesBytes, CapabilitiesForm;
    if p.value.Capabilities? { CapabilitiesBack(p.value.caps); }
  }

  lemma ParamAhead(p: OptionalParam, rest: Bytes)
    requires ParamForm(p)
    ensures ParseParams(ParamBytes(p) + rest) == AfterParams([p], ParseParams(rest))
  {
    hide ParseValue, ValueBytes, TypeOf, TypeByte;
    ValueBack(p);
    Piece(TypeByte(p.paramType), p.len, ValueBytes(p.value), rest);
  }

  lemma {:induction false} ParamsBack(ps: seq<OptionalParam>)
    requires ParamsForm(ps)
    ensures ParseParams(ParamsBytes(ps)) == Ok(ps)
  {
    hide ParseParams, ParamBytes, ParamForm;
    if ps == [] {
      NoParams(Ok([]));
    } else {
      ParamsBack(ps[1..]);
      ParamAhead(ps[0], ParamsBytes(ps[1..]));
      assert ps == [ps[0]] + ps[1..];
    }
  }

  // Whatever is read has the form, and as many bytes as it was read from.
  lemma {:induction false} CapabilitiesRead(b: Bytes, cs: seq<Capability>)
    requires ParseCapabilities(b) == Ok(cs)
    ensures CapabilitiesForm(cs) && |CapabilitiesBytes(cs)| == |b|
  {
    if b != [] {
      CapabilitiesRead(b[2 + b[1]..], cs[1..]);
    }
  }

  lemma {:induction false} ParamsRead(b: Bytes, ps: seq<OptionalParam>)
    requires ParseParams(b) == Ok(ps)
    ensures ParamsForm(ps) && |ParamsBytes(ps)| == |b|
  {
    hide ParseCapabilities, CapabilitiesBytes, CapabilitiesForm;
    if b != [] {
      var v := b[2..2 + b[1]];
      ParamsRead(b[2 + b[1]..], ps[1..]);
      if b[0] == CAPABILITIES { CapabilitiesRead(v, ps[0].value.caps); }
      assert ParamForm(ps[0]);
    }
  }

  // ----- messages come back -----

  // An AS number that does not fit its field, or that looks as if it did not, must be in
  // the first four-octet capability.
  predicate AsnForm(m: OpenMessage) {
    m.asn > 65535 || m.asn == AS_TRANS ==> FindFourOctetAsn(m.optionalParams) == Some(m.asn)
  }

  predicate WellFormed(m: OpenMessage) {
    && m.version == BGP_VERSION
    && m.holdTime != 1 && m.holdTime != 2
    && m.bgpIdentifier != 0
    && m.optionalParamsLen == |ParamsBytes(m.optionalParams)|
    && ParamsForm(m.optionalParams)
    && AsnForm(m)
  }

  lemma EncodeFields(m: OpenMessage)
    ensures var b := Encode(m);
      && |b| == 10 + |ParamsBytes(m.optionalParams)| && b[0] == m.version && b[9] == m.optionalParamsLen
      && U16(b[1..3]) == AsnField(m.asn) && U16(b[3..5]) == m.holdTime && U32(b[5..9]) == m.bgpIdentifier
      && b[10..] == ParamsBytes(m.optionalParams)
  {
    hide ParamsBytes;
    var b := Encode(m);
    assert b[1..3] == Be(AsnField(m.asn), 2) && b[3..5] == Be(m.holdTime, 2) && b[5..9] == Be(m.bgpIdentifier, 4);
    assert b[10..] == ParamsBytes(m.optionalParams);
    U16Back(AsnField(m.asn));
    U16Back(m.holdTime);
    U32Back(m.bgpIdentifier);
  }

  // Decoding an encoded message recovers every field exactly when it is well formed.
  lemma OpenBack(m: OpenMessage)
    ensures Decode(Encode(m)) == Ok(m) <==> WellFormed(m)
  {
    hide Encode, ParseParams, ParamsBytes, FindFourOctetAsn, ParamsForm;
    var b := Encode(m);
    EncodeFields(m);
    if WellFormed(m) {
      ParamsBack(m.optionalParams);
      assert b[10..10 + b[9]] == b[10..];
    } else if Decode(b) == Ok(m) {
      ParamsRead(b[10..10 + b[9]], m.optionalParams);
    }
  }

  // ----- accepted bytes come back -----

  // A capability code that is remembered: a known one, or the 0 that stands for the others.
  predicate Remembered(code: u8) { code in {0, 1, 2, 64, 65, 69, 70, 71} }

  predicate RememberedCodes(b: Bytes) {
    b == [] || (|b| >= 2 && 2 + b[1] <= |b| && Remembered(b[0]) && RememberedCodes(b[2 + b[1]..]))
  }

  // Every capability of every capabilities parameter has a remembered code.
  predicate RememberedParams(b: Bytes) {
    b == [] ||
    (|b| >= 2 && 2 + b[1] <= |b| && (b[0] == CAPABILITIES ==> RememberedCodes(b[2..2 + b[1]]))
     && RememberedParams(b[2 + b[1]..]))
  }

  lemma CodeWritten(v: u8)
    ensures CodeByte(CodeOf(v)) == v <==> Remembered(v)
  {
  }

  lemma SamePiece(tag: u8, len: u8, value: Bytes, rest: Bytes, b: Bytes)
    requires |b| >= 2 && b[1] == len == |value| && 2 + len <= |b|
    ensures [tag, len] + value + rest == b <==> tag == b[0] && value == b[2..2 + len] && rest == b[2 + len..]
  {
    Piece(tag, len, value, rest);
    assert [b[0], len] + b[2..2 + len] + b[2 + len..] == b;
  }

  lemma {:induction false} CapabilitiesWritten(b: Bytes, cs: seq<Capability>)
    requires ParseCapabilities(b) == Ok(cs)
    ensures CapabilitiesBytes(cs) == b <==> RememberedCodes(b)
  {
    hide CodeByte, CodeOf, Remembered;
    if b != [] {
      CapabilitiesWritten(b[2 + b[1]..], cs[1..]);
      CodeWritten(b[0]);
      SamePiece(CodeByte(CodeOf(b[0])), b[1], b[2..2 + b[1]], CapabilitiesBytes(cs[1..]), b);
    }
  }

  lemma {:induction false} ParamsWritten(b: Bytes, ps: seq<OptionalParam>)
    requires ParseParams(b) == Ok(ps)
    ensures ParamsBytes(ps) == b <==> RememberedParams(b)
  {
    hide ParseCapabilities, CapabilitiesBytes, RememberedCodes;
    if b != [] {
      var v, p := b[2..2 + b[1]], ps[0];
      ParamsWritten(b[2 + b[1]..], ps[1..]);
      if b[0] == CAPABILITIES {
        CapabilitiesRead(v, p.value.caps);
        CapabilitiesWritten(v, p.value.caps);
      }
      SamePiece(b[0], b[1], ValueBytes(p.value), ParamsBytes(ps[1..]), b);
    }
  }

  // The field of the AS number is written as it was read.
  predicate AsnKept(b: Bytes, m: OpenMessage)
    requires |b| >= 10
  {
    U16(b[1..3]) == AS_TRANS ==> m.asn == AS_TRANS || m.asn > 65535
  }

  lemma HeaderWritten(b: Bytes, m: OpenMessage)
    requires Decode(b) == Ok(m)
    ensures Encode(m) == b <==> ParamsBytes(m.optionalParams) == b[10..] && AsnKept(b, m)
  {
    hide ParseParams, ParamsBytes, FindFourOctetAsn, Be;
    var e := Encode(m);
    EncodeFields(m);
    BeNum(b[1..3]);
    BeNum(b[3..5]);
    BeNum(b[5..9]);
    var asn, rest := U16(b[1..3]), [m.optionalParamsLen] + ParamsBytes(m.optionalParams);
    assert AsnField(m.asn) == asn <==> AsnKept(b, m);
    assert b == [b[0]] + b[1..3] + b[3..5] + b[5..9] + [b[9]] + b[10..];
  }

  // An accepted body is written again byte for byte if and only if no byte lies past the
  // announced parameters, every capability code is remembered and the AS number is kept.
  lemma DecodeExact(b: Bytes, m: OpenMessage)
    requires Decode(b) == Ok(m)
    ensures |Encode(m)| == |b| <==> |b| <= 265
    ensures Encode(m) == b <==> |b| <= 265 && RememberedParams(b[10..]) && AsnKept(b, m)
  {
    hide Encode, ParseParams, ParamsBytes, FindFourOctetAsn, RememberedParams, AsnKept;
    EncodeFields(m);
    ParamsRead(b[10..10 + b[9]], m.optionalParams);
    if |b| <= 265 {
      assert b[10..10 + b[9]] == b[10..];
      ParamsWritten(b[10..], m.optionalParams);
      HeaderWritten(b, m);
    }
  }

  // A capability with an unknown code comes back with code 0.
  lemma ForgottenCodeExample()
    ensures ParseCapabilities([9, 0]) == Ok([Capability(UnknownCode, 0, [])])
    ensures CapabilitiesBytes([Capability(UnknownCode, 0, [])]) == [0, 0]
  {
    var c := Capability(UnknownCode, 0, []);
    var b: Bytes := [9, 0];
    assert b[2 + b[1]..] == [] && b[2..2 + b[1]] == [] && ParseCapabilities(b[2 + b[1]..]) == Ok([]);
    assert [c] + [] == [c];
    assert CapabilitiesBytes([c][1..]) == [] by { assert [c][1..] == []; }
  }

  lemma SmallNumbers()
    ensures Be(0, 2) == [0, 0] && Be(1, 2) == [0, 1] && Be(0x101_0101, 4) == [1, 1, 1, 1]
  {
    assert Be(0, 1) == [0] && Be(1, 1) == [1];
    assert Be(0x101, 2) == Be(1, 1) + [1];
    assert Be(0x1_0101, 3) == Be(0x101, 2) + [1];
  }

  // A body of 266 bytes whose parameters are announced as empty is accepted as such.
  lemma TrailingBytesExample(b: Bytes)
    requires |b| == 266 && b[..10] == [4, 0, 1, 0, 0, 1, 1, 1, 1, 0]
    ensures Decode(b) == Ok(OpenMessage(4, 1, 0, 0x101_0101, 0, []))
  {
    hide Be;
    var h := b[..10];
    SmallNumbers();
    assert b[1..3] == h[1..3] == Be(1, 2);
    assert b[3..5] == h[3..5] == Be(0, 2);
    assert b[5..9] == h[5..9] == Be(0x101_0101, 4);
    assert b[0] == h[0] && b[9] == h[9];
    U16Back(1);
    U16Back(0);
    U32Back(0x101_0101);
    assert b[10..10] == [] && ParseParams([]) == Ok([]);
  }

  // ----- the cursor loops -----

  function AfterCaps(cs: seq<Capability>, r: Result<seq<Capability>>): Result<seq<Capability>> {
    match r
    case Err => Err
    case Ok(ds) => Ok(cs + ds)
  }

  lemma CapabilityStep(b: Bytes, at: nat, cs: seq<Capability>)
    requires at < |b|
    ensures AfterCaps(cs, ParseCapabilities(b[at..])) ==
            if at + 2 > |b| || at + 2 + b[at + 1] > |b| then Err
            else
              var end := at + 2 + b[at + 1];
              AfterCaps(cs + [Capability(CodeOf(b[at]), b[at + 1], b[at + 2..end])], ParseCapabilities(b[end..]))
  {
    var rest := b[at..];
    if at + 2 <= |b| && at + 2 + b[at + 1] <= |b| {
      var end := at + 2 + b[at + 1];
      assert rest[0] == b[at] && rest[1] == b[at + 1];
      assert rest[2..2 + rest[1]] == b[at + 2..end] && rest[2 + rest[1]..] == b[end..];
      if ParseCapabilities(b[end..]).Ok? {
        var c, ds := Capability(CodeOf(b[at]), b[at + 1], b[at + 2..end]), ParseCapabilities(b[end..]).value;
        assert cs + ([c] + ds) == cs + [c] + ds;
      }
    }
  }

  method ParseCapabilityLoop(bytes: Bytes) returns (r: Result<seq<Capability>>)
    ensures r == ParseCapabilities(bytes)
  {
    hide ParseCapabilities;
    var caps: seq<Capability> := [];
    var cursor := 0;
    assert bytes[0..] == bytes;
    NoCapabilities(ParseCapabilities(bytes));
    while cursor < |bytes|
      invariant 0 <= cursor <= |bytes|
      invariant ParseCapabilities(bytes) == AfterCaps(caps, ParseCapabilities(bytes[cursor..]))
    {
      CapabilityStep(bytes, cursor, caps);
      if cursor + 2 > |bytes| {
        return Err;
      }
      var code, len := bytes[cursor], bytes[cursor + 1];
      cursor := cursor + 2;
      if cursor + len > |bytes| {
        return Err;
      }
      caps := caps + [Capability(CodeOf(code), len, bytes[cursor..cursor + len])];
      cursor := cursor + len;
    }
    assert bytes[cursor..] == [] && caps + [] == caps;
    r := Ok(caps);
  }

  lemma NoCapabilities(r: Result<seq<Capability>>)
    ensures AfterCaps([], r) == r && ParseCapabilities([]) == Ok([])
  {
    if r.Ok? { assert [] + r.value == r.value; }
  }

  function AfterParams(ps: seq<OptionalParam>, r: Result<seq<OptionalParam>>): Result<seq<OptionalParam>> {
    match r
    case Err => Err
    case Ok(qs) => Ok(ps + qs)
  }

  lemma ParamStep(b: Bytes, at: nat, ps: seq<OptionalParam>)
    requires at < |b|
    ensures AfterParams(ps, ParseParams(b[at..])) ==
            if at + 2 > |b| || at + 2 + b[at + 1] > |b| then Err
            else
              var end := at + 2 + b[at + 1];
              match ParseValue(b[at], b[at + 2..end])
              case Err => Err
              case Ok(v) => AfterParams(ps + [OptionalParam(TypeOf(b[at]), b[at + 1], v)], ParseParams(b[end..]))
  {
    hide ParseValue;
    var rest := b[at..];
    if at + 2 <= |b| && at + 2 + b[at + 1] <= |b| {
      var end := at + 2 + b[at + 1];
      assert rest[0] == b[at] && rest[1] == b[at + 1];
      assert rest[2..2 + rest[1]] == b[at + 2..end] && rest[2 + rest[1]..] == b[end..];
      if ParseParams(b[end..]).Ok? && ParseValue(b[at], b[at + 2..end]).Ok? {
        var p := OptionalParam(TypeOf(b[at]), b[at + 1], ParseValue(b[at], b[at + 2..end]).value);
        assert ps + ([p] + ParseParams(b[end..]).value) == ps + [p] + ParseParams(b[end..]).value;
      }
    }
  }

  method ReadOptionalParameters(bytes: Bytes) returns (r: Result<seq<OptionalParam>>)
    ensures r == ParseParams(bytes)
  {
    hide ParseParams, ParseCapabilities;
    var params: seq<OptionalParam> := [];
    var cursor := 0;
    assert bytes[0..] == bytes;
    NoParams(ParseParams(bytes));
    while cursor < |bytes|
      invariant 0 <= cursor <= |bytes|
      invariant ParseParams(bytes) == AfterParams(params, ParseParams(bytes[cursor..]))
    {
      ParamStep(bytes, cursor, params);
      if cursor + 2 > |bytes| {
        return Err;
      }
      var t, len := bytes[cursor], bytes[cursor + 1];
      cursor := cursor + 2;
      if cursor + len > |bytes| {
        return Err;
      }
      var data := bytes[cursor..cursor + len];
      var value := Raw(data);
      if TypeOf(t).CapabilitiesParam? {
        var caps := ParseCapabilityLoop(data);
        if caps.Err? {
          return Err;
        }
        value := Capabilities(caps.value);
      }
      cursor := cursor + len;
      params := params + [OptionalParam(TypeOf(t), len, value)];
    }
    assert bytes[cursor..] == [] && params + [] == params;
    r := Ok(params);
  }

  lemma NoParams(r: Result<seq<OptionalParam>>)
    ensures AfterParams([], r) == r && ParseParams([]) == Ok([])
  {
    if r.Ok? { assert [] + r.value == r.value; }
  }
}
