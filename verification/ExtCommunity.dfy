// Text and wire form of extended communities (bgpgg/src/bgp/ext_community.rs; section 3 of
// RFC 4360). A community is a 64-bit number; most of this module works on its eight bytes.
// How a link bandwidth prints and reads as a float is a parameter.
module ExtCommunity {
  import opened Bytes
  import opened Decimal
  import opened Wrappers

  const TWO_OCTET: u8 := 0x00
  const IPV4: u8 := 0x01
  const FOUR_OCTET: u8 := 0x02
  const OPAQUE: u8 := 0x03
  const NON_TRANSITIVE_OPAQUE: u8 := 0x43
  const EVPN: u8 := 0x06
  const NON_TRANSITIVE_TWO_OCTET: u8 := 0x40
  const ROUTE_TARGET: u8 := 0x02
  const ROUTE_ORIGIN: u8 := 0x03
  const LINK_BANDWIDTH: u8 := 0x04
  const COLOR: u8 := 0x0B
  const ENCAPSULATION: u8 := 0x0C
  const ORIGIN_VALIDATION: u8 := 0x00
  const ROUTER_MAC: u8 := 0x03

  type Octets8 = b: Bytes | |b| == 8 witness [0, 0, 0, 0, 0, 0, 0, 0]

  // How the bits of a float print, and what prints are read as.
  datatype Floats = Floats(show: u32 -> string, read: string -> Option<u32>)

  // ----- hexadecimal text -----

  predicate IsHex(c: char) { IsDigit(c) || 'a' <= c <= 'f' || 'A' <= c <= 'F' }

  predicate AllHex(s: string) { forall c | c in s :: IsHex(c) }

  function HexChar(d: int): (c: char)
    requires 0 <= d < 16
    ensures IsHex(c) && HexDigit(c) == d
  {
    if d < 10 then ('0' as int + d) as char else ('a' as int + d - 10) as char
  }

  function HexDigit(c: char): (d: nat)
    requires IsHex(c)
    ensures d < 16
  {
    if IsDigit(c) then c as int - '0' as int
    else if 'a' <= c <= 'f' then c as int - 'a' as int + 10 else c as int - 'A' as int + 10
  }

  // `{:0nx}`: lower case, padded with zeros to n digits.
  function Hex(v: nat, n: nat): (s: string)
    ensures |s| == n && AllHex(s)
  {
    if n == 0 then [] else Hex(v / 16, n - 1) + [HexChar(v % 16)]
  }

  function HexValue(s: string): nat
    requires AllHex(s)
  {
    if s == [] then 0 else
      var last := s[|s| - 1];
      assert last in s;
      HexValue(s[..|s| - 1]) * 16 + HexDigit(last)
  }

  // `from_str_radix(s, 16)` for an unsigned type.
  function ParseHex(s: string, max: nat): Option<nat> {
    var t := if |s| > 1 && s[0] == '+' then s[1..] else s;
    if t != [] && AllHex(t) && HexValue(t) <= max then Some(HexValue(t)) else None
  }

  function Pow16(n: nat): nat { if n == 0 then 1 else 16 * Pow16(n - 1) }

  lemma {:induction false} HexBack(v: nat, n: nat)
    requires v < Pow16(n)
    ensures HexValue(Hex(v, n)) == v
  {
    if n > 0 {
      HexBack(v / 16, n - 1);
      assert Hex(v, n)[..n - 1] == Hex(v / 16, n - 1);
    }
  }

  lemma Pow16Values()
    ensures Pow16(2) == 0x100 && Pow16(16) == 0x1_0000_0000_0000_0000
  {
    assert Pow16(4) == 16 * Pow16(3) && Pow16(3) == 16 * Pow16(2);
    assert Pow16(6) == 16 * Pow16(5) && Pow16(5) == 16 * Pow16(4);
    assert Pow16(8) == 16 * Pow16(7) && Pow16(7) == 16 * Pow16(6);
    assert Pow16(10) == 16 * Pow16(9) && Pow16(9) == 16 * Pow16(8);
    assert Pow16(12) == 16 * Pow16(11) && Pow16(11) == 16 * Pow16(10);
    assert Pow16(14) == 16 * Pow16(13) && Pow16(13) == 16 * Pow16(12);
    assert Pow16(16) == 16 * Pow16(15) && Pow16(15) == 16 * Pow16(14);
  }

  lemma ParseHexBack(v: nat, n: nat, max: nat)
    requires n > 0 && v < Pow16(n) && v <= max
    ensures ParseHex(Hex(v, n), max) == Some(v)
  {
    var s := Hex(v, n);
    assert s[0] in s;
    HexBack(v, n);
  }

  // ----- packing -----

  // The eight bytes of each form, most significant first.
  function TwoOctet(sub: u8, asn: u16, local: u32): Octets8 { [TWO_OCTET, sub] + Be(asn, 2) + Be(local, 4) }

  function OfIpv4(sub: u8, ip: Ipv4, local: u16): Octets8 { [IPV4, sub, ip.a, ip.b, ip.c, ip.d] + Be(local, 2) }

  function FourOctet(sub: u8, asn: u32, local: u16): Octets8 { [FOUR_OCTET, sub] + Be(asn, 4) + Be(local, 2) }

  function OfColor(color: u32): Octets8 { [OPAQUE, COLOR, 0, 0] + Be(color, 4) }

  function OfEncapsulation(tunnel: u16): Octets8 { [OPAQUE, ENCAPSULATION, 0, 0, 0, 0] + Be(tunnel, 2) }

  function OfState(state: u8): Octets8 { [NON_TRANSITIVE_OPAQUE, ORIGIN_VALIDATION, 0, 0, 0, 0, 0, state] }

  function OfBandwidth(asn: u16, bits: u32): Octets8 {
    [NON_TRANSITIVE_TWO_OCTET, LINK_BANDWIDTH] + Be(asn, 2) + Be(bits, 4)
  }

  lemma {:induction false} NumConcat(a: Bytes, b: Bytes)
    ensures Num(a + b) == Num(a) * Pow256(|b|) + Num(b)
  {
    hide Num, Pow256;
    if b == [] {
      assert a + b == a;
      Nothing();
    } else {
      var front, last := b[..|b| - 1], b[|b| - 1];
      NumConcat(a, front);
      assert a + b == (a + front) + [last] && b == front + [last];
      OneMore(a + front, last);
      OneMore(front, last);
      Scaled(Num(a), Pow256(|front|), Num(front), last);
    }
  }

  lemma Nothing()
    ensures Num([]) == 0 && Pow256(0) == 1
  {
  }

  lemma OneMore(b: Bytes, last: u8)
    ensures Num(b + [last]) == Num(b) * 256 + last && Pow256(|b| + 1) == 256 * Pow256(|b|)
  {
    assert (b + [last])[..|b|] == b;
  }

  lemma Scaled(x: nat, p: nat, y: nat, last: nat)
    ensures (x * p + y) * 256 + last == x * (256 * p) + (y * 256 + last)
  {
    assert (x * p) * 256 == x * (256 * p);
  }

  // The shifts of the source place the fields where the bytes are: type and subtype lead.
  function Shifted(typ: u8, sub: u8, value: nat): nat {
    typ * 0x100_0000_0000_0000 + sub * 0x1_0000_0000_0000 + value
  }

  lemma Packed(typ: u8, sub: u8, v: Bytes)
    requires |v| == 6
    ensures Num([typ, sub] + v) == Shifted(typ, sub, Num(v))
  {
    hide Num;
    SixBytes();
    NumConcat([typ, sub], v);
    TwoBytes(typ, sub);
  }

  lemma SixBytes()
    ensures Pow256(6) == 0x1_0000_0000_0000
  {
    Pow256Values();
    assert Pow256(5) == 256 * Pow256(4);
  }

  // A field of n bytes in front of the last ones.
  lemma PackedPair(hi: nat, h: nat, lo: nat, l: nat)
    requires hi < Pow256(h) && lo < Pow256(l)
    ensures Num(Be(hi, h) + Be(lo, l)) == hi * Pow256(l) + lo
  {
    NumConcat(Be(hi, h), Be(lo, l));
    NumBe(hi, h);
    NumBe(lo, l);
  }

  lemma TwoOctetPacked(sub: u8, asn: u16, local: u32)
    ensures Num(TwoOctet(sub, asn, local)) == Shifted(TWO_OCTET, sub, asn * 0x1_0000_0000 + local)
  {
    hide Be, Num;
    Pow256Values();
    Packed(TWO_OCTET, sub, Be(asn, 2) + Be(local, 4));
    PackedPair(asn, 2, local, 4);
    assert TwoOctet(sub, asn, local) == [TWO_OCTET, sub] + (Be(asn, 2) + Be(local, 4));
  }

  lemma FourOctetPacked(sub: u8, asn: u32, local: u16)
    ensures Num(FourOctet(sub, asn, local)) == Shifted(FOUR_OCTET, sub, asn * 0x1_0000 + local)
  {
    hide Be, Num;
    Pow256Values();
    Packed(FOUR_OCTET, sub, Be(asn, 4) + Be(local, 2));
    PackedPair(asn, 4, local, 2);
    assert FourOctet(sub, asn, local) == [FOUR_OCTET, sub] + (Be(asn, 4) + Be(local, 2));
  }

  // The address as the number that `u32::from` makes of it.
  function AddressNumber(ip: Ipv4): nat { Num([ip.a, ip.b, ip.c, ip.d]) }

  lemma Ipv4Packed(sub: u8, ip: Ipv4, local: u16)
    ensures Num(OfIpv4(sub, ip, local)) == Shifted(IPV4, sub, AddressNumber(ip) * 0x1_0000 + local)
  {
    hide Be, Num;
    Pow256Values();
    var a := [ip.a, ip.b, ip.c, ip.d];
    Packed(IPV4, sub, a + Be(local, 2));
    NumConcat(a, Be(local, 2));
    NumBe(local, 2);
    assert OfIpv4(sub, ip, local) == [IPV4, sub] + (a + Be(local, 2));
  }

  lemma ColorPacked(color: u32)
    ensures Num(OfColor(color)) == Shifted(OPAQUE, COLOR, color)
  {
    hide Be, Num;
    Pow256Values();
    Packed(OPAQUE, COLOR, [0, 0] + Be(color, 4));
    NumConcat([0, 0], Be(color, 4));
    NumBe(color, 4);
    TwoBytes(0, 0);
    assert OfColor(color) == [OPAQUE, COLOR] + ([0, 0] + Be(color, 4));
  }

  lemma EncapsulationPacked(tunnel: u16)
    ensures Num(OfEncapsulation(tunnel)) == Shifted(OPAQUE, ENCAPSULATION, tunnel)
  {
    hide Be, Num;
    Pow256Values();
    Packed(OPAQUE, ENCAPSULATION, [0, 0, 0, 0] + Be(tunnel, 2));
    NumConcat([0, 0, 0, 0], Be(tunnel, 2));
    FourZeros();
    NumBe(tunnel, 2);
    assert OfEncapsulation(tunnel) == [OPAQUE, ENCAPSULATION] + ([0, 0, 0, 0] + Be(tunnel, 2));
  }

  lemma FourZeros()
    ensures Num([0, 0, 0, 0]) == 0
  {
    hide Num;
    NumConcat([0, 0], [0, 0]);
    TwoBytes(0, 0);
    assert [0, 0] + [0, 0] == [0, 0, 0, 0];
  }

  lemma StatePacked(state: u8)
    ensures Num(OfState(state)) == Shifted(NON_TRANSITIVE_OPAQUE, ORIGIN_VALIDATION, state)
  {
    hide Num;
    Pow256Values();
    Packed(NON_TRANSITIVE_OPAQUE, ORIGIN_VALIDATION, [0, 0, 0, 0, 0, state]);
    NumConcat([0, 0, 0, 0], [0, state]);
    FourZeros();
    TwoBytes(0, state);
    assert [0, 0, 0, 0] + [0, state] == [0, 0, 0, 0, 0, state];
    assert OfState(state) == [NON_TRANSITIVE_OPAQUE, ORIGIN_VALIDATION] + [0, 0, 0, 0, 0, state];
  }

  function MacNumber(a: nat, b: nat, c: nat, d: nat, e: nat, f: nat): nat {
    a * 0x100_0000_0000 + b * 0x1_0000_0000 + c * 0x100_0000 + d * 0x1_0000 + e * 0x100 + f
  }

  lemma MacPacked(v: Bytes)
    requires |v| == 6
    ensures Num([EVPN, ROUTER_MAC] + v) ==
            Shifted(EVPN, ROUTER_MAC, MacNumber(v[0], v[1], v[2], v[3], v[4], v[5]))
  {
    hide Num;
    Pow256Values();
    Packed(EVPN, ROUTER_MAC, v);
    NumConcat(v[..2], v[2..]);
    NumConcat(v[2..4], v[4..]);
    TwoBytes(v[0], v[1]);
    TwoBytes(v[2], v[3]);
    TwoBytes(v[4], v[5]);
    assert v[..2] == [v[0], v[1]] && v[2..4] == [v[2], v[3]] && v[4..] == [v[4], v[5]];
    assert v == v[..2] + v[2..] && v[2..] == v[2..4] + v[4..];
  }

  lemma BandwidthPacked(asn: u16, bits: u32)
    ensures Num(OfBandwidth(asn, bits)) ==
            Shifted(NON_TRANSITIVE_TWO_OCTET, LINK_BANDWIDTH, asn * 0x1_0000_0000 + bits)
  {
    hide Be, Num;
    Pow256Values();
    Packed(NON_TRANSITIVE_TWO_OCTET, LINK_BANDWIDTH, Be(asn, 2) + Be(bits, 4));
    PackedPair(asn, 2, bits, 4);
    assert OfBandwidth(asn, bits) == [NON_TRANSITIVE_TWO_OCTET, LINK_BANDWIDTH] + (Be(asn, 2) + Be(bits, 4));
  }

  lemma TwoBytes(a: u8, b: u8)
    ensures Num([a, b]) == a * 256 + b
  {
    assert [a, b][..1] == [a] && [a][..0] == [];
  }

  // ----- formatting -----

  function Prefix(sub: u8): Option<string> {
    if sub == ROUTE_TARGET then Some("rt") else if sub == ROUTE_ORIGIN then Some("ro") else None
  }

  function Pair(a: string, b: string): string { a + [':'] + b }

  function HexForm(b: Octets8): string { "0x" + Hex(Num(b), 16) }

  function MacText(v: Bytes): string
    requires |v| == 6
  {
    Pair(Hex(v[0], 2), Pair(Hex(v[1], 2), Pair(Hex(v[2], 2), Pair(Hex(v[3], 2), Pair(Hex(v[4], 2), Hex(v[5], 2))))))
  }

  function StateText(state: u8): Option<string> {
    match state
    case 0 => Some("valid")
    case 1 => Some("not-found")
    case 2 => Some("invalid")
    case _ => None
  }

  predicate IsBandwidth(b: Octets8) { b[0] == NON_TRANSITIVE_TWO_OCTET && b[1] == LINK_BANDWIDTH }

  function Format(b: Octets8, fl: Floats): string {
    if b[0] == OPAQUE then
      if b[1] == COLOR then Pair("color", Digits(U32(b[4..])))
      else if b[1] == ENCAPSULATION then Pair("encapsulation", Digits(U16(b[6..])))
      else HexForm(b)
    else if b[0] == NON_TRANSITIVE_OPAQUE then
      if b[1] == ORIGIN_VALIDATION && StateText(b[7]).Some? then Pair("rpki", StateText(b[7]).value) else HexForm(b)
    else if b[0] == EVPN then
      if b[1] == ROUTER_MAC then Pair("router-mac", MacText(b[2..])) else HexForm(b)
    else if b[0] == NON_TRANSITIVE_TWO_OCTET then
      if b[1] == LINK_BANDWIDTH then Pair("lb", Pair(Digits(U16(b[2..4])), fl.show(U32(b[4..])))) else HexForm(b)
    else if Prefix(b[1]).None? then HexForm(b)
    else
      var p := Prefix(b[1]).value;
      if b[0] == TWO_OCTET then Pair(p, Pair(Digits(U16(b[2..4])), Digits(U32(b[4..]))))
      else if b[0] == IPV4 then Pair(p, Pair(Ipv4Text(Ipv4(b[2], b[3], b[4], b[5])), Digits(U16(b[6..]))))
      else if b[0] == FOUR_OCTET then Pair(p, Pair(Digits(U32(b[2..6])), Digits(U16(b[6..]))))
      else HexForm(b)
  }

  // ----- parsing -----

  function StateOf(s: string): Option<u8> {
    if s == "valid" then Some(0) else if s == "not-found" then Some(1) else if s == "invalid" then Some(2) else None
  }

  function ParseU8Hex(s: string): Option<u8> { ParseHex(s, U8_MAX) }

  function ParseMac(ps: seq<string>): Option<Bytes> {
    if ps == [] then Some([])
    else
      var x :- ParseU8Hex(ps[0]);
      var rest :- ParseMac(ps[1..]);
      Some([x] + rest)
  }

  function SubOf(s: string): Option<u8> {
    if s == "rt" then Some(ROUTE_TARGET) else if s == "ro" then Some(ROUTE_ORIGIN) else None
  }

  function ParseTwo(head: string, tail: string): Option<Octets8> {
    if head == "rpki" then var s :- StateOf(tail); Some(OfState(s))
    else if head == "color" then var c :- Word(tail); Some(OfColor(c))
    else if head == "encapsulation" then var t :- Half(tail); Some(OfEncapsulation(t))
    else None
  }

  function Word(s: string): Option<u32> { ParseUint(s, U32_MAX) }

  function Half(s: string): Option<u16> { ParseUint(s, U16_MAX) }

  function ParseTarget(sub: u8, value: string, local: string): Option<Octets8> {
    if '.' in value then
      var ip :- ParseIpv4(value);
      var l :- Half(local);
      Some(OfIpv4(sub, ip, l))
    else
      var asn :- Word(value);
      var l :- Word(local);
      if asn <= 65535 then Some(TwoOctet(sub, asn, l))
      else if l > 65535 then None else Some(FourOctet(sub, asn, l))
  }

  function ParseThree(head: string, value: string, local: string, fl: Floats): Option<Octets8> {
    if head == "lb" then
      var asn :- Half(value);
      var bits :- fl.read(local);
      Some(OfBandwidth(asn, bits))
    else
      var sub :- SubOf(head);
      ParseTarget(sub, value, local)
  }

  predicate HexPrefixed(s: string) { |s| >= 2 && s[0] == '0' && s[1] == 'x' }

  function Parse(s: string, fl: Floats): Option<Octets8> {
    if HexPrefixed(s) then
      var v :- ParseHex(s[2..], U64_MAX);
      Some(Be(v, 8))
    else
      var ps := Split(s, ':');
      if |ps| == 2 then ParseTwo(ps[0], ps[1])
      else if |ps| == 7 && ps[0] == "router-mac" then
        var mac :- ParseMac(ps[1..]);
        if |mac| == 6 then Some([EVPN, ROUTER_MAC] + mac) else None
      else if |ps| == 3 then ParseThree(ps[0], ps[1], ps[2], fl)
      else None
  }

  // ----- parsing what was formatted -----

  lemma SplitPair(a: string, b: string)
    requires ':' !in a
    ensures Split(Pair(a, b), ':') == [a] + Split(b, ':')
    ensures a != [] && a[0] != '0' ==> !HexPrefixed(Pair(a, b))
  {
    SplitJoin(a, ':', b);
  }

  lemma SplitTwo(a: string, b: string)
    requires ':' !in a && ':' !in b
    ensures Split(Pair(a, b), ':') == [a, b]
    ensures a != [] && a[0] != '0' ==> !HexPrefixed(Pair(a, b))
  {
    SplitPair(a, b);
    SplitWhole(b, ':');
  }

  lemma SplitThree(a: string, b: string, c: string)
    requires ':' !in a && ':' !in b && ':' !in c
    ensures Split(Pair(a, Pair(b, c)), ':') == [a, b, c]
    ensures a != [] && a[0] != '0' ==> !HexPrefixed(Pair(a, Pair(b, c)))
  {
    SplitPair(a, Pair(b, c));
    SplitTwo(b, c);
  }

  lemma HexPlain(v: nat, n: nat)
    ensures ':' !in Hex(v, n)
  {
  }

  lemma SplitMac(v: Bytes)
    requires |v| == 6
    ensures Split(MacText(v), ':') ==
            [Hex(v[0], 2), Hex(v[1], 2), Hex(v[2], 2), Hex(v[3], 2), Hex(v[4], 2), Hex(v[5], 2)]
  {
    hide Hex, Split;
    HexPlain(v[0], 2);
    HexPlain(v[1], 2);
    HexPlain(v[2], 2);
    HexPlain(v[3], 2);
    HexPlain(v[4], 2);
    HexPlain(v[5], 2);
    var t4 := Pair(Hex(v[4], 2), Hex(v[5], 2));
    var t3 := Pair(Hex(v[3], 2), t4);
    var t2 := Pair(Hex(v[2], 2), t3);
    var t1 := Pair(Hex(v[1], 2), t2);
    SplitTwo(Hex(v[4], 2), Hex(v[5], 2));
    SplitPair(Hex(v[3], 2), t4);
    SplitPair(Hex(v[2], 2), t3);
    SplitPair(Hex(v[1], 2), t2);
    SplitPair(Hex(v[0], 2), t1);
  }

  lemma {:induction false} MacBack(ps: seq<string>, v: Bytes)
    requires |ps| == |v| && forall i | 0 <= i < |v| :: ps[i] == Hex(v[i], 2)
    ensures ParseMac(ps) == Some(v)
  {
    if v != [] {
      Pow16Values();
      ParseHexBack(v[0], 2, U8_MAX);
      MacBack(ps[1..], v[1..]);
      assert v == [v[0]] + v[1..];
    }
  }

  lemma HexFormBack(b: Octets8, fl: Floats)
    ensures Parse(HexForm(b), fl) == Some(b)
  {
    var s := HexForm(b);
    assert HexPrefixed(s) && s[2..] == Hex(Num(b), 16);
    Pow16Values();
    Pow256Values();
    ParseHexBack(Num(b), 16, U64_MAX);
    BeNum(b);
  }

  lemma WordBack(v: nat)
    ensures v <= U32_MAX ==> Word(Digits(v)) == Some(v)
    ensures v <= U16_MAX ==> Half(Digits(v)) == Some(v)
    ensures ':' !in Digits(v) && '.' !in Digits(v)
  {
    ParseDigits(v, U32_MAX);
    ParseDigits(v, U16_MAX);
    DigitsHold(v, ':');
    DigitsHold(v, '.');
  }

  // What parsing the text of a community gives: reserved bytes cleared, and a small AS
  // number in the two-octet form.
  function Normal(b: Octets8): Octets8 {
    if b[0] == OPAQUE && b[1] == COLOR then OfColor(U32(b[4..]))
    else if b[0] == OPAQUE && b[1] == ENCAPSULATION then OfEncapsulation(U16(b[6..]))
    else if b[0] == NON_TRANSITIVE_OPAQUE && b[1] == ORIGIN_VALIDATION && b[7] <= 2 then OfState(b[7])
    else if b[0] == FOUR_OCTET && Prefix(b[1]).Some? && U32(b[2..6]) <= 65535 then
      TwoOctet(b[1], U32(b[2..6]), U16(b[6..]))
    else b
  }

  lemma OpaqueBack(b: Octets8, fl: Floats)
    requires b[0] == OPAQUE || b[0] == NON_TRANSITIVE_OPAQUE
    ensures Parse(Format(b, fl), fl) == Some(Normal(b))
  {
    hide Hex, Split, Be, Num, ParseUint, Digits, ParseMac, ParseThree, HexPrefixed, Pair;
    if b[0] == OPAQUE && b[1] == COLOR {
      WordBack(U32(b[4..]));
      SplitTwo("color", Digits(U32(b[4..])));
    } else if b[0] == OPAQUE && b[1] == ENCAPSULATION {
      WordBack(U16(b[6..]));
      SplitTwo("encapsulation", Digits(U16(b[6..])));
    } else if b[0] == NON_TRANSITIVE_OPAQUE && b[1] == ORIGIN_VALIDATION && StateText(b[7]).Some? {
      SplitTwo("rpki", StateText(b[7]).value);
      assert StateOf(StateText(b[7]).value) == Some(b[7]);
    } else {
      HexFormBack(b, fl);
    }
  }

  lemma EvpnBack(b: Octets8, fl: Floats)
    requires b[0] == EVPN
    ensures Parse(Format(b, fl), fl) == Some(b)
  {
    hide Hex, Split, Be, Num, ParseUint, Digits, ParseMac, ParseThree, MacText, HexPrefixed, Pair;
    if b[1] == ROUTER_MAC {
      var v := b[2..];
      SplitMac(v);
      SplitPair("router-mac", MacText(v));
      var ps := Split(Pair("router-mac", MacText(v)), ':');
      assert ps[1..] == Split(MacText(v), ':');
      MacBack(ps[1..], v);
      assert [EVPN, ROUTER_MAC] + v == b;
    } else {
      HexFormBack(b, fl);
    }
  }

  lemma HasDot(ip: Ipv4)
    ensures '.' in Ipv4Text(ip) && ':' !in Ipv4Text(ip)
  {
    DigitsHold(ip.a, ':');
    DigitsHold(ip.b, ':');
    DigitsHold(ip.c, ':');
    DigitsHold(ip.d, ':');
    assert Ipv4Text(ip)[|Digits(ip.a)|] == '.';
  }

  // The three route target and route origin forms, text to bytes.
  lemma TargetAsnBack(sub: u8, p: string, asn: u32, local: u32, fl: Floats)
    requires Prefix(sub) == Some(p) && (asn > 65535 ==> local <= 65535)
    ensures Parse(Pair(p, Pair(Digits(asn), Digits(local))), fl) ==
            Some(if asn <= 65535 then TwoOctet(sub, asn, local) else FourOctet(sub, asn, local))
  {
    hide Split, Be, ParseUint, Digits, ParseMac, ParseTwo, HexPrefixed, Pair;
    WordBack(asn);
    WordBack(local);
    SplitThree(p, Digits(asn), Digits(local));
  }

  lemma TargetIpBack(sub: u8, p: string, ip: Ipv4, local: u16, fl: Floats)
    requires Prefix(sub) == Some(p)
    ensures Parse(Pair(p, Pair(Ipv4Text(ip), Digits(local))), fl) == Some(OfIpv4(sub, ip, local))
  {
    hide Split, Be, ParseUint, Digits, ParseMac, ParseTwo, Ipv4Text, ParseIpv4, HexPrefixed, Pair;
    HasDot(ip);
    WordBack(local);
    SplitThree(p, Ipv4Text(ip), Digits(local));
    Ipv4RoundTrip(ip);
  }

  lemma TargetBack(b: Octets8, fl: Floats)
    requires b[0] == TWO_OCTET || b[0] == IPV4 || b[0] == FOUR_OCTET
    ensures Parse(Format(b, fl), fl) == Some(Normal(b))
  {
    hide Parse, Hex, Be, Num, Digits, Ipv4Text;
    if Prefix(b[1]).None? {
      HexFormBack(b, fl);
    } else if b[0] == TWO_OCTET {
      TargetAsnBack(b[1], Prefix(b[1]).value, U16(b[2..4]), U32(b[4..]), fl);
      BeNum(b[2..4]);
      BeNum(b[4..]);
      assert [b[0], b[1]] + b[2..4] + b[4..] == b;
    } else if b[0] == IPV4 {
      TargetIpBack(b[1], Prefix(b[1]).value, Ipv4(b[2], b[3], b[4], b[5]), U16(b[6..]), fl);
      BeNum(b[6..]);
      assert [b[0], b[1], b[2], b[3], b[4], b[5]] + b[6..] == b;
    } else {
      TargetAsnBack(b[1], Prefix(b[1]).value, U32(b[2..6]), U16(b[6..]), fl);
      BeNum(b[2..6]);
      BeNum(b[6..]);
      assert [b[0], b[1]] + b[2..6] + b[6..] == b;
    }
  }

  lemma OtherBack(b: Octets8, fl: Floats)
    requires !IsBandwidth(b) && b[0] != OPAQUE && b[0] != NON_TRANSITIVE_OPAQUE && b[0] != EVPN
    requires b[0] != TWO_OCTET && b[0] != IPV4 && b[0] != FOUR_OCTET
    ensures Parse(Format(b, fl), fl) == Some(b) && Normal(b) == b
  {
    hide Parse, HexForm, Digits, Ipv4Text, MacText;
    HexFormBack(b, fl);
  }

  // The text of every community other than a link bandwidth parses, to its normal form.
  lemma FormatParses(b: Octets8, fl: Floats)
    requires !IsBandwidth(b)
    ensures Parse(Format(b, fl), fl) == Some(Normal(b))
  {
    hide Parse, Format;
    if b[0] == OPAQUE || b[0] == NON_TRANSITIVE_OPAQUE {
      OpaqueBack(b, fl);
    } else if b[0] == EVPN {
      EvpnBack(b, fl);
    } else if b[0] == TWO_OCTET || b[0] == IPV4 || b[0] == FOUR_OCTET {
      TargetBack(b, fl);
    } else {
      OtherBack(b, fl);
    }
  }

  // ----- which communities are in normal form -----

  predicate Zero(b: Bytes) { forall i | 0 <= i < |b| :: b[i] == 0 }

  // Reserved bytes are zero and four-octet AS numbers need four octets.
  predicate IsNormal(b: Octets8) {
    && (b[0] == OPAQUE && b[1] == COLOR ==> Zero(b[2..4]))
    && (b[0] == OPAQUE && b[1] == ENCAPSULATION ==> Zero(b[2..6]))
    && (b[0] == NON_TRANSITIVE_OPAQUE && b[1] == ORIGIN_VALIDATION && b[7] <= 2 ==> Zero(b[2..7]))
    && (b[0] == FOUR_OCTET && Prefix(b[1]).Some? ==> U32(b[2..6]) > 65535)
  }

  lemma ColorNormal(b: Octets8)
    requires b[0] == OPAQUE && b[1] == COLOR
    ensures OfColor(U32(b[4..])) == b <==> Zero(b[2..4])
  {
    var c := OfColor(U32(b[4..]));
    BeNum(b[4..]);
    assert c[4..] == b[4..] && c[2..4] == [0, 0];
    if Zero(b[2..4]) {
      assert b[2..4][0] == 0 && b[2..4][1] == 0;
      assert c == b[..4] + b[4..];
    }
  }

  lemma EncapsulationNormal(b: Octets8)
    requires b[0] == OPAQUE && b[1] == ENCAPSULATION
    ensures OfEncapsulation(U16(b[6..])) == b <==> Zero(b[2..6])
  {
    var c := OfEncapsulation(U16(b[6..]));
    BeNum(b[6..]);
    assert c[6..] == b[6..] && c[2..6] == [0, 0, 0, 0];
    if Zero(b[2..6]) {
      assert b[2..6][0] == 0 && b[2..6][1] == 0 && b[2..6][2] == 0 && b[2..6][3] == 0;
      assert c == b[..6] + b[6..];
    }
  }

  lemma StateNormal(b: Octets8)
    requires b[0] == NON_TRANSITIVE_OPAQUE && b[1] == ORIGIN_VALIDATION
    ensures OfState(b[7]) == b <==> Zero(b[2..7])
  {
    var c := OfState(b[7]);
    assert c[2..7] == [0, 0, 0, 0, 0];
    if Zero(b[2..7]) {
      var z := b[2..7];
      assert z[0] == 0 && z[1] == 0 && z[2] == 0 && z[3] == 0 && z[4] == 0;
      assert c == b;
    }
  }

  // The original comes back exactly when it is in normal form.
  lemma NormalExact(b: Octets8)
    ensures Normal(b) == b <==> IsNormal(b)
  {
    hide OfColor, OfEncapsulation, OfState, Zero, Num, Be;
    if b[0] == OPAQUE && b[1] == COLOR {
      ColorNormal(b);
    } else if b[0] == OPAQUE && b[1] == ENCAPSULATION {
      EncapsulationNormal(b);
    } else if b[0] == NON_TRANSITIVE_OPAQUE && b[1] == ORIGIN_VALIDATION {
      StateNormal(b);
    } else if b[0] == FOUR_OCTET && Prefix(b[1]).Some? && U32(b[2..6]) <= 65535 {
      assert Normal(b)[0] == TWO_OCTET;
    }
  }

  // A color with a reserved byte set loses that byte on the way through text.
  lemma ReservedByteExample(fl: Floats)
    ensures Parse(Format([3, 0x0B, 0, 1, 0, 0, 0, 5], fl), fl) == Some([3, 0x0B, 0, 0, 0, 0, 0, 5])
  {
    var b: Octets8 := [3, 0x0B, 0, 1, 0, 0, 0, 5];
    hide Parse, Format;
    FormatParses(b, fl);
    BeNum(b[4..]);
    assert OfColor(U32(b[4..])) == [OPAQUE, COLOR, 0, 0] + b[4..];
    assert [OPAQUE, COLOR, 0, 0] + b[4..] == [3, 0x0B, 0, 0, 0, 0, 0, 5];
  }


  // Formatting the normal form gives the same text: formatting again changes nothing.
  lemma SameText(b: Octets8, fl: Floats)
    ensures Format(Normal(b), fl) == Format(b, fl)
  {
    hide Num, Be, Digits, HexForm, MacText, Ipv4Text;
    var n := Normal(b);
    if b[0] == OPAQUE && b[1] == COLOR {
      U32Back(U32(b[4..]));
      assert n[4..] == Be(U32(b[4..]), 4);
    } else if b[0] == OPAQUE && b[1] == ENCAPSULATION {
      U16Back(U16(b[6..]));
      assert n[6..] == Be(U16(b[6..]), 2);
    } else if b[0] == FOUR_OCTET && Prefix(b[1]).Some? && U32(b[2..6]) <= 65535 {
      U16Back(U32(b[2..6]));
      U32Back(U16(b[6..]));
      assert n[2..4] == Be(U32(b[2..6]), 2) && n[4..] == Be(U16(b[6..]), 4);
    }
  }

  // A link bandwidth comes back whenever its float does.
  lemma BandwidthBack(b: Octets8, fl: Floats)
    requires IsBandwidth(b)
    requires ':' !in fl.show(U32(b[4..])) && fl.read(fl.show(U32(b[4..]))) == Some(U32(b[4..]))
    ensures Parse(Format(b, fl), fl) == Some(b)
  {
    hide Split, Be, Num, ParseUint, Digits, ParseMac, ParseTwo, HexPrefixed, Pair;
    var asn := U16(b[2..4]);
    WordBack(asn);
    SplitThree("lb", Digits(asn), fl.show(U32(b[4..])));
    BeNum(b[2..4]);
    BeNum(b[4..]);
    assert [b[0], b[1]] + b[2..4] + b[4..] == b;
  }

  // ----- as 64-bit numbers -----

  // For every number other than a link bandwidth the text parses and formats to itself, and
  // the number comes back exactly when it is in normal form.
  lemma NumberBack(x: u64, fl: Floats)
    requires !IsBandwidth(Be(x, 8))
    ensures var text := Format(Be(x, 8), fl);
      var y := Parse(text, fl);
      y.Some? && Format(y.value, fl) == text && (Num(y.value) == x <==> IsNormal(Be(x, 8)))
  {
    hide Parse, Format, IsNormal, IsBandwidth, Normal, Num, Be;
    var b := Be(x, 8);
    FormatParses(b, fl);
    SameText(b, fl);
    NormalExact(b);
    Pow256Values();
    NumBe(x, 8);
    BeNum(Normal(b));
  }
}
